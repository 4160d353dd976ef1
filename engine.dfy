/**
 * The alert engine of internal/alert/engine.go: the quiet-period and threshold
 * decisions, one evaluation tick of a rule, the dispatch of an alert to the
 * notifiers its channels name, and the loading of the rule set. The engine's
 * only evolving state is the map from rule name to the time it last fired.
 * Scheduling is not modelled: each tick is a call with the current time.
 */
module Engine {
  import opened Wrappers
  import opened Bytes
  import opened Time
  import opened Rules
  import opened Query
  import opened Notification
  import opened RuleLoader
  import Config
  import Render

  // ---------------------------------------------------------------------------
  // Decisions

  /**
   * `shouldFire`: a rule that never fired may fire; otherwise it may fire once its
   * quiet period (its own, or the engine's default) has elapsed since it last fired.
   */
  function ShouldFire(lastAlertAt: map<Bytes, Time>, r: Rule, now: Time, parse: DurationParser, defaultQuiet: Duration): bool
  {
    r.name !in lastAlertAt || Sub(now, lastAlertAt[r.name]) >= GetQuietPeriod(r.dedup, parse, defaultQuiet)
  }

  /**
   * The decision for a rule that has fired before, stated against the true elapsed time
   * (which `Sub` only saturates far beyond any real clock).
   */
  lemma ShouldFireElapsed(lastAlertAt: map<Bytes, Time>, r: Rule, now: Time, parse: DurationParser, defaultQuiet: Duration)
    ensures r.name !in lastAlertAt ==> ShouldFire(lastAlertAt, r, now, parse, defaultQuiet)
    ensures r.name in lastAlertAt && now - lastAlertAt[r.name] >= MinDuration ==>
      (ShouldFire(lastAlertAt, r, now, parse, defaultQuiet) <==>
       now - lastAlertAt[r.name] >= GetQuietPeriod(r.dedup, parse, defaultQuiet))
  {
  }

  /** Once a rule may fire, it stays allowed at every later time while the map is unchanged. */
  lemma ShouldFireMonotone(lastAlertAt: map<Bytes, Time>, r: Rule, now: Time, later: Time, parse: DurationParser, defaultQuiet: Duration)
    requires now <= later
    requires ShouldFire(lastAlertAt, r, now, parse, defaultQuiet)
    ensures ShouldFire(lastAlertAt, r, later, parse, defaultQuiet)
  {
    if r.name in lastAlertAt {
      SubMonotone(now, later, lastAlertAt[r.name]);
    }
  }

  /** `hitThreshold`: strictly more hits than `CountGt`; never when no threshold is set. */
  function HitThreshold(r: Rule, count: int): bool
  {
    r.threshold.countGt.Some? && count > r.threshold.countGt.value
  }

  /** Without a threshold no count fires; with one, the count must exceed it. */
  lemma HitThresholdCases(r: Rule, count: int)
    ensures r.threshold.countGt.None? ==> !HitThreshold(r, count)
    ensures r.threshold.countGt.Some? ==> (HitThreshold(r, count) <==> count > r.threshold.countGt.value)
  {
  }

  /** More hits never turn an alert off. */
  lemma HitThresholdMonotone(r: Rule, count: int, more: int)
    requires count <= more && HitThreshold(r, count)
    ensures HitThreshold(r, more)
  {
  }

  const TitlePrefix: Bytes :=
    [91, 69, 108, 97, 115, 116, 105, 99, 115, 101, 97, 114, 99, 104, 32, 65, 108, 101, 114, 116, 93, 32]  // "[Elasticsearch Alert] "

  /** The alert title: a fixed prefix and the rule's name. */
  function Title(name: Bytes): (t: Bytes)
    ensures |t| == |TitlePrefix| + |name|
    ensures t[..|TitlePrefix|] == TitlePrefix && t[|TitlePrefix|..] == name
  {
    TitlePrefix + name
  }

  // ---------------------------------------------------------------------------
  // Dispatch

  /** The channel test of the dispatch loop; the `"console"` clause adds nothing to name equality. */
  predicate Matches(n: Notifier, ch: Bytes)
  {
    Name(n) == ch || (ch == ConsoleName && Name(n) == ConsoleName)
  }

  lemma MatchesIsNameEquality(n: Notifier, ch: Bytes)
    ensures Matches(n, ch) <==> Name(n) == ch
  {
  }

  /** One call of `Send`; its error is only logged, so the model records the call and nothing else. */
  datatype Delivery = Delivery(notifier: Notifier, title: Bytes, body: Bytes)

  /** The sends for one channel: every notifier it matches, in list order. */
  function ChannelSends(ch: Bytes, ns: seq<Notifier>, title: Bytes, body: Bytes): seq<Delivery>
  {
    if ns == [] then []
    else
      ChannelSends(ch, ns[..|ns| - 1], title, body)
      + (if Matches(ns[|ns| - 1], ch) then [Delivery(ns[|ns| - 1], title, body)] else [])
  }

  /** The sends for all channels, channel by channel. */
  function Sends(channels: seq<Bytes>, ns: seq<Notifier>, title: Bytes, body: Bytes): seq<Delivery>
  {
    if channels == [] then []
    else Sends(channels[..|channels| - 1], ns, title, body) + ChannelSends(channels[|channels| - 1], ns, title, body)
  }

  function Occurrences<T(==)>(x: T, xs: seq<T>): nat
  {
    if xs == [] then 0 else Occurrences(x, xs[..|xs| - 1]) + (if xs[|xs| - 1] == x then 1 else 0)
  }

  /** How many of the sends go to `n`. */
  function SendsTo(ds: seq<Delivery>, n: Notifier): nat
  {
    if ds == [] then 0 else SendsTo(ds[..|ds| - 1], n) + (if ds[|ds| - 1].notifier == n then 1 else 0)
  }

  lemma {:induction false} SendsToConcat(a: seq<Delivery>, b: seq<Delivery>, n: Notifier)
    ensures SendsTo(a + b, n) == SendsTo(a, n) + SendsTo(b, n)
    decreases |b|
  {
    if b == [] {
      assert a + b == a;
    } else {
      var b' := b[..|b| - 1];
      SendsToConcat(a, b', n);
      assert (a + b)[..|a + b| - 1] == a + b';
      assert (a + b)[|a + b| - 1] == b[|b| - 1];
    }
  }

  /** A channel sends to `n` as often as `n` is listed, when the channel is `n`'s name, and never otherwise. */
  lemma {:induction false} ChannelSendsCount(ch: Bytes, ns: seq<Notifier>, title: Bytes, body: Bytes, n: Notifier)
    ensures SendsTo(ChannelSends(ch, ns, title, body), n) == if Name(n) == ch then Occurrences(n, ns) else 0
  {
    if ns != [] {
      var init, last := ns[..|ns| - 1], ns[|ns| - 1];
      var extra := if Matches(last, ch) then [Delivery(last, title, body)] else [];
      assert ChannelSends(ch, ns, title, body) == ChannelSends(ch, init, title, body) + extra;
      assert Occurrences(n, ns) == Occurrences(n, init) + (if last == n then 1 else 0);
      ChannelSendsCount(ch, init, title, body, n);
      SendsToConcat(ChannelSends(ch, init, title, body), extra, n);
      MatchesIsNameEquality(last, ch);
      assert SendsTo([Delivery(last, title, body)], n) == if last == n then 1 else 0 by {
        assert [Delivery(last, title, body)][..0] == [];
      }
    }
  }

  lemma MulSucc(a: nat, c: nat)
    ensures (a + 1) * c == a * c + c
  {
  }

  /**
   * The dispatch sends to a notifier once for every occurrence of its name among the
   * channels, times the number of times it is listed.
   */
  lemma {:induction false} SendsCount(channels: seq<Bytes>, ns: seq<Notifier>, title: Bytes, body: Bytes, n: Notifier)
    ensures SendsTo(Sends(channels, ns, title, body), n) == Occurrences(Name(n), channels) * Occurrences(n, ns)
  {
    if channels != [] {
      var init, last := channels[..|channels| - 1], channels[|channels| - 1];
      SendsCount(init, ns, title, body, n);
      assert Sends(channels, ns, title, body) == Sends(init, ns, title, body) + ChannelSends(last, ns, title, body);
      SendsToConcat(Sends(init, ns, title, body), ChannelSends(last, ns, title, body), n);
      ChannelSendsCount(last, ns, title, body, n);
      var a, c := Occurrences(Name(n), init), Occurrences(n, ns);
      assert SendsTo(Sends(channels, ns, title, body), n) == a * c + (if last == Name(n) then c else 0);
      if last == Name(n) {
        assert Occurrences(Name(n), channels) == a + 1;
        MulSucc(a, c);
      } else {
        assert Occurrences(Name(n), channels) == a;
      }
    }
  }

  /** A channel no notifier is named after sends nothing. */
  lemma {:induction false} UnmatchedChannelSendsNothing(ch: Bytes, ns: seq<Notifier>, title: Bytes, body: Bytes)
    requires forall i :: 0 <= i < |ns| ==> Name(ns[i]) != ch
    ensures ChannelSends(ch, ns, title, body) == []
  {
    if ns != [] {
      UnmatchedChannelSendsNothing(ch, ns[..|ns| - 1], title, body);
    }
  }

  /** Every send carries the alert's title and body, to a listed notifier whose name is a channel. */
  lemma {:induction false} SendsAreMatched(channels: seq<Bytes>, ns: seq<Notifier>, title: Bytes, body: Bytes)
    ensures forall d :: d in Sends(channels, ns, title, body) ==>
      d.notifier in ns && Name(d.notifier) in channels && d.title == title && d.body == body
  {
    if channels != [] {
      var init, last := channels[..|channels| - 1], channels[|channels| - 1];
      SendsAreMatched(init, ns, title, body);
      ChannelSendsAreMatched(last, ns, title, body);
      forall d | d in Sends(channels, ns, title, body)
        ensures d.notifier in ns && Name(d.notifier) in channels && d.title == title && d.body == body
      {
        if d in Sends(init, ns, title, body) {
          assert Name(d.notifier) in init;
        }
      }
    }
  }

  lemma {:induction false} ChannelSendsAreMatched(ch: Bytes, ns: seq<Notifier>, title: Bytes, body: Bytes)
    ensures forall d :: d in ChannelSends(ch, ns, title, body) ==>
      d.notifier in ns && Name(d.notifier) == ch && d.title == title && d.body == body
  {
    if ns != [] {
      ChannelSendsAreMatched(ch, ns[..|ns| - 1], title, body);
      assert forall m :: m in ns[..|ns| - 1] ==> m in ns;
    }
  }

  // ---------------------------------------------------------------------------
  // One tick

  /** What the engine is built with and never changes: `notifiers`, `defaultQuiet`, `sampleSize`, the addresses. */
  datatype Setup = Setup(
    notifiers: seq<Notifier>,
    defaultQuiet: Duration,
    sampleSize: int,
    addresses: seq<Bytes>,
    parse: DurationParser)

  /** How one tick of a rule ends. */
  datatype Outcome =
    | Suppressed
    | QueryFailed(error: QueryError)
    | BelowThreshold(count: int)
    | Fired(title: Bytes, body: Bytes, sends: seq<Delivery>)

  /**
   * `executeRule` as a function of the state before the tick: the quiet period, then the
   * query, then the threshold, then the alert. `firedAt` is the time as the body shows it.
   */
  function Evaluate(s: Setup, lastAlertAt: map<Bytes, Time>, r: Rule, now: Time, firedAt: Bytes, search: Backend): Outcome
  {
    if !ShouldFire(lastAlertAt, r, now, s.parse, s.defaultQuiet) then Suppressed
    else
      match QueryOutcome(r, s.sampleSize, search)
      case Failure(err) => QueryFailed(err)
      case Success(answer) =>
        if !HitThreshold(r, answer.0) then BelowThreshold(answer.0)
        else Alert(s, r, answer.0, answer.1, firedAt)
  }

  /** The alert a tick raises from the hit count and the samples: its title, its body and its sends. */
  function Alert(s: Setup, r: Rule, count: int, samples: seq<Doc>, firedAt: Bytes): Outcome
  {
    var title := Title(r.name);
    var body := Render.Flatten(Render.BodyPieces(Render.BodyInput(r, count, samples, s.addresses, firedAt)));
    Fired(title, body, Sends(r.alerts.channels, s.notifiers, title, body))
  }

  /** The map after the tick: the rule's entry becomes `now` when it fired, and nothing else changes. */
  function NextAlertAt(lastAlertAt: map<Bytes, Time>, r: Rule, now: Time, o: Outcome): map<Bytes, Time>
  {
    if o.Fired? then lastAlertAt[r.name := now] else lastAlertAt
  }

  /** A tick fires exactly when the rule may fire, the query succeeds and the count passes the threshold. */
  lemma FiresIff(s: Setup, lastAlertAt: map<Bytes, Time>, r: Rule, now: Time, firedAt: Bytes, search: Backend)
    ensures Evaluate(s, lastAlertAt, r, now, firedAt, search).Fired? <==>
      && ShouldFire(lastAlertAt, r, now, s.parse, s.defaultQuiet)
      && QueryOutcome(r, s.sampleSize, search).Success?
      && HitThreshold(r, QueryOutcome(r, s.sampleSize, search).value.0)
    ensures !ShouldFire(lastAlertAt, r, now, s.parse, s.defaultQuiet) ==> Evaluate(s, lastAlertAt, r, now, firedAt, search) == Suppressed
    ensures ShouldFire(lastAlertAt, r, now, s.parse, s.defaultQuiet) && QueryOutcome(r, s.sampleSize, search).Failure? ==>
      Evaluate(s, lastAlertAt, r, now, firedAt, search) == QueryFailed(QueryOutcome(r, s.sampleSize, search).error)
  {
  }

  /** Only the rule's own entry can change, and only on firing; every other entry stays as it was. */
  lemma NextAlertAtFrame(lastAlertAt: map<Bytes, Time>, r: Rule, now: Time, o: Outcome)
    ensures !o.Fired? ==> NextAlertAt(lastAlertAt, r, now, o) == lastAlertAt
    ensures o.Fired? ==> r.name in NextAlertAt(lastAlertAt, r, now, o) && NextAlertAt(lastAlertAt, r, now, o)[r.name] == now
    ensures forall k :: k != r.name ==>
      (k in NextAlertAt(lastAlertAt, r, now, o) <==> k in lastAlertAt) &&
      (k in lastAlertAt ==> NextAlertAt(lastAlertAt, r, now, o)[k] == lastAlertAt[k])
  {
  }

  /**
   * After a rule fires at `now`, every tick of it before its quiet period has elapsed
   * is suppressed, whatever the backend answers.
   */
  lemma QuietAfterFiring(s: Setup, lastAlertAt: map<Bytes, Time>, r: Rule, now: Time, later: Time,
                         firedAt: Bytes, firedAt': Bytes, search: Backend, search': Backend)
    requires Evaluate(s, lastAlertAt, r, now, firedAt, search).Fired?
    requires now <= later < now + GetQuietPeriod(r.dedup, s.parse, s.defaultQuiet)
    ensures var next := NextAlertAt(lastAlertAt, r, now, Evaluate(s, lastAlertAt, r, now, firedAt, search));
            Evaluate(s, next, r, later, firedAt', search') == Suppressed
  {
    var next := NextAlertAt(lastAlertAt, r, now, Evaluate(s, lastAlertAt, r, now, firedAt, search));
    assert next[r.name] == now;
    assert Sub(later, now) == later - now;
  }

  /** A fired alert carries the rendered body and is sent as the dispatch rule says. */
  lemma FiredAlert(s: Setup, lastAlertAt: map<Bytes, Time>, r: Rule, now: Time, firedAt: Bytes, search: Backend)
    requires Evaluate(s, lastAlertAt, r, now, firedAt, search).Fired?
    ensures var o := Evaluate(s, lastAlertAt, r, now, firedAt, search);
            var answer := QueryOutcome(r, s.sampleSize, search).value;
            && o.title == Title(r.name)
            && o.body == Render.Flatten(Render.BodyPieces(Render.BodyInput(r, answer.0, answer.1, s.addresses, firedAt)))
            && forall n :: SendsTo(o.sends, n) == Occurrences(Name(n), r.alerts.channels) * Occurrences(n, s.notifiers)
  {
    var o := Evaluate(s, lastAlertAt, r, now, firedAt, search);
    forall n ensures SendsTo(o.sends, n) == Occurrences(Name(n), r.alerts.channels) * Occurrences(n, s.notifiers) {
      SendsCount(r.alerts.channels, s.notifiers, o.title, o.body, n);
    }
  }

  // ---------------------------------------------------------------------------
  // The engine

  class Engine {
    const setup: Setup
    var rules: seq<Rule>
    var lastAlertAt: map<Bytes, Time>
    /** Every `Send` made so far, in order. */
    var sent: seq<Delivery>

    /**
     * `NewEngine` before it loads the rules: the default quiet period and the sample size come
     * from the configuration, the map starts empty.
     */
    constructor (cfg: Config.Config, notifiers: seq<Notifier>, parse: DurationParser)
      ensures setup == Setup(notifiers, Config.GetDefaultQuietPeriod(cfg.rules, parse), cfg.rules.sampleSize,
                             cfg.elasticsearch.addresses, parse)
      ensures rules == [] && lastAlertAt == map[] && sent == []
    {
      setup := Setup(notifiers, Config.GetDefaultQuietPeriod(cfg.rules, parse), cfg.rules.sampleSize,
                     cfg.elasticsearch.addresses, parse);
      rules := [];
      lastAlertAt := map[];
      sent := [];
    }

    /**
     * `loadRules`: `listing` is what reading the directory gave (`None` when it failed). On
     * success the rule set is replaced by the valid rules in order; on any error it is kept.
     */
    method LoadRules(listing: Option<seq<DirEntry>>) returns (err: Option<LoadError>)
      modifies this
      ensures listing.None? ==> err == Some(ReadDirError) && rules == old(rules)
      ensures listing.Some? && LoadAll(listing.value).Success? ==> err.None? && rules == LoadAll(listing.value).value
      ensures listing.Some? && LoadAll(listing.value).Failure? ==>
        err == Some(LoadAll(listing.value).error) && rules == old(rules)
      ensures lastAlertAt == old(lastAlertAt) && sent == old(sent)
    {
      if listing.None? {
        return Some(ReadDirError);
      }
      var entries := listing.value;
      var loaded: seq<Rule> := [];
      for i := 0 to |entries|
        invariant LoadAll(entries[..i]) == Success(loaded)
        invariant rules == old(rules) && lastAlertAt == old(lastAlertAt) && sent == old(sent)
      {
        var entry := entries[i];
        LoadAllSnoc(entries[..i], entry);
        assert entries[..i + 1] == entries[..i] + [entry];
        if !IsRuleFile(entry) {
          continue;
        }
        var failure: Option<LoadError> := None;
        match entry.file {
          case Unreadable => failure := Some(ReadRuleError(entry.name));
          case Malformed => failure := Some(UnmarshalRuleError(entry.name));
          case Parsed(r) =>
            if !ValidRule(r) {
              failure := Some(InvalidRuleError(entry.name));
            } else {
              loaded := loaded + [r];
            }
        }
        if failure.Some? {
          assert LoadAll(entries[..i + 1]) == Failure(failure.value);
          LoadFailurePersists(entries, i + 1);
          return failure;
        }
      }
      assert entries[..|entries|] == entries;
      rules := loaded;
      return None;
    }

    /** The dispatch loop: each channel in order, each notifier in list order, a send per match. */
    method Dispatch(channels: seq<Bytes>, title: Bytes, body: Bytes)
      modifies this
      ensures sent == old(sent) + Sends(channels, setup.notifiers, title, body)
      ensures rules == old(rules) && lastAlertAt == old(lastAlertAt)
    {
      var notifiers := setup.notifiers;
      for i := 0 to |channels|
        invariant sent == old(sent) + Sends(channels[..i], notifiers, title, body)
        invariant rules == old(rules) && lastAlertAt == old(lastAlertAt)
      {
        var ch := channels[i];
        ghost var before := sent;
        for j := 0 to |notifiers|
          invariant sent == before + ChannelSends(ch, notifiers[..j], title, body)
          invariant rules == old(rules) && lastAlertAt == old(lastAlertAt)
        {
          var n := notifiers[j];
          assert notifiers[..j + 1][..j] == notifiers[..j];
          if Name(n) == ch || (ch == ConsoleName && Name(n) == ConsoleName) {
            AppendAssoc(before, ChannelSends(ch, notifiers[..j], title, body), [Delivery(n, title, body)]);
            sent := sent + [Delivery(n, title, body)];
          }
        }
        assert notifiers[..|notifiers|] == notifiers;
        assert channels[..i + 1][..i] == channels[..i];
        AppendAssoc(old(sent), Sends(channels[..i], notifiers, title, body), ChannelSends(ch, notifiers, title, body));
      }
      assert channels[..|channels|] == channels;
    }

    /** The firing branch of `executeRule`: render, dispatch, then record the time. */
    method Fire(r: Rule, now: Time, count: int, samples: seq<Doc>, firedAt: Bytes) returns (outcome: Outcome)
      modifies this
      ensures outcome == Alert(setup, r, count, samples, firedAt)
      ensures sent == old(sent) + outcome.sends
      ensures lastAlertAt == old(lastAlertAt)[r.name := now] && rules == old(rules)
    {
      var title := Title(r.name);
      var body := Render.RenderBody(r, count, samples, setup.addresses, firedAt);
      Dispatch(r.alerts.channels, title, body);
      lastAlertAt := lastAlertAt[r.name := now];
      outcome := Fired(title, body, Sends(r.alerts.channels, setup.notifiers, title, body));
    }

    /**
     * `executeRule` for one tick at `now`: `firedAt` is the time as the body shows it, `search`
     * the backend. The map is written only when the alert fires, whether or not a send succeeds.
     */
    method ExecuteRule(r: Rule, now: Time, firedAt: Bytes, search: Backend) returns (outcome: Outcome)
      modifies this
      ensures outcome == Evaluate(setup, old(lastAlertAt), r, now, firedAt, search)
      ensures lastAlertAt == NextAlertAt(old(lastAlertAt), r, now, outcome)
      ensures sent == old(sent) + (if outcome.Fired? then outcome.sends else [])
      ensures rules == old(rules)
    {
      if !ShouldFire(lastAlertAt, r, now, setup.parse, setup.defaultQuiet) {
        return Suppressed;
      }
      var res := QueryCountAndSamples(r, setup.sampleSize, search);
      if res.Failure? {
        return QueryFailed(res.error);
      }
      var count, samples := res.value.0, res.value.1;
      if !HitThreshold(r, count) {
        return BelowThreshold(count);
      }
      outcome := Fire(r, now, count, samples, firedAt);
    }
  }
}
