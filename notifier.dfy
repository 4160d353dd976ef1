/**
 * The notifier kinds of internal/notification and `BuildNotifiers`, which
 * decides from the configuration which of them exist and in what order.
 * Every `Send` body is a network client and is not part of this model.
 */
module Notification {
  import opened Bytes
  import opened Time
  import opened Config

  datatype Notifier =
    | Console
    | Webhook(url: Bytes, headers: map<Bytes, Bytes>, timeout: Duration)
    | Feishu(webhook: Bytes, enableAtAll: bool, timeout: Duration, titlePrefix: Bytes, contentIntro: Bytes)
    | DingTalk(webhook: Bytes, secret: Bytes, enableAtAll: bool, timeout: Duration)
    | WeChat(webhook: Bytes, timeout: Duration)
    | Email(
        host: Bytes,
        port: int,
        username: Bytes,
        password: Bytes,
        from: Bytes,
        to: seq<Bytes>,
        useTLS: bool,
        tlsSkipVerify: bool,
        subjectPrefix: Bytes,
        timeout: Duration)

  const ConsoleName: Bytes := [99, 111, 110, 115, 111, 108, 101]  // "console"
  const WebhookName: Bytes := [119, 101, 98, 104, 111, 111, 107]  // "webhook"
  const FeishuName: Bytes := [102, 101, 105, 115, 104, 117]  // "feishu"
  const DingTalkName: Bytes := [100, 105, 110, 103, 116, 97, 108, 107]  // "dingtalk"
  const WeChatName: Bytes := [119, 101, 99, 104, 97, 116]  // "wechat"
  const EmailName: Bytes := [101, 109, 97, 105, 108]  // "email"

  /** `Name()` of each kind: the identity a rule's channel list refers to. */
  function Name(n: Notifier): Bytes
  {
    match n
    case Console => ConsoleName
    case Webhook(_, _, _) => WebhookName
    case Feishu(_, _, _, _, _) => FeishuName
    case DingTalk(_, _, _, _) => DingTalkName
    case WeChat(_, _) => WeChatName
    case Email(_, _, _, _, _, _, _, _, _, _) => EmailName
  }

  /** The position of each kind in the fixed order `BuildNotifiers` appends them in. */
  function Rank(n: Notifier): nat
  {
    match n
    case Console => 0
    case Webhook(_, _, _) => 1
    case Feishu(_, _, _, _, _) => 2
    case DingTalk(_, _, _, _) => 3
    case WeChat(_, _) => 4
    case Email(_, _, _, _, _, _, _, _, _, _) => 5
  }

  /** The length and first byte of each name; together they tell all six apart. */
  lemma NameShape(n: Notifier)
    ensures match n
      case Console => |Name(n)| == 7 && Name(n)[0] == 'c' as int
      case Webhook(_, _, _) => |Name(n)| == 7 && Name(n)[0] == 'w' as int
      case Feishu(_, _, _, _, _) => |Name(n)| == 6 && Name(n)[0] == 'f' as int
      case DingTalk(_, _, _, _) => |Name(n)| == 8
      case WeChat(_, _) => |Name(n)| == 6 && Name(n)[0] == 'w' as int
      case Email(_, _, _, _, _, _, _, _, _, _) => |Name(n)| == 5
  {
    match n
    case Console => assert Name(n) == ConsoleName;
    case Webhook(_, _, _) => assert Name(n) == WebhookName;
    case Feishu(_, _, _, _, _) => assert Name(n) == FeishuName;
    case DingTalk(_, _, _, _) => assert Name(n) == DingTalkName;
    case WeChat(_, _) => assert Name(n) == WeChatName;
    case Email(_, _, _, _, _, _, _, _, _, _) => assert Name(n) == EmailName;
  }

  /** Two notifiers of different kinds never share a name. */
  lemma NamesIdentifyKinds(a: Notifier, b: Notifier)
    ensures Name(a) == Name(b) <==> Rank(a) == Rank(b)
  {
    NameShape(a);
    NameShape(b);
  }

  const DefaultHttpTimeout: Duration := 5 * Second
  const DefaultEmailTimeout: Duration := 10 * Second

  predicate EmailConfigured(e: EmailConfig)
  {
    e.host != [] && e.from != [] && |e.to| > 0
  }

  /** Some notifier of kind `k` (see `Rank`) is in `ns`. */
  predicate HasKind(ns: seq<Notifier>, k: nat)
  {
    exists i :: 0 <= i < |ns| && Rank(ns[i]) == k
  }

  lemma HasKindAppend(ns: seq<Notifier>, x: Notifier, k: nat)
    ensures HasKind(ns + [x], k) <==> HasKind(ns, k) || Rank(x) == k
  {
    if HasKind(ns, k) {
      var i :| 0 <= i < |ns| && Rank(ns[i]) == k;
      assert (ns + [x])[i] == ns[i];
    }
    if Rank(x) == k {
      assert (ns + [x])[|ns|] == x;
    }
  }

  /** Kinds strictly increase along `ns`: the fixed order, each kind at most once. */
  predicate Ordered(ns: seq<Notifier>)
  {
    forall i, j :: 0 <= i < j < |ns| ==> Rank(ns[i]) < Rank(ns[j])
  }

  /** The notifier of kind `k` (see `Rank`) that `BuildNotifiers` makes from the configuration. */
  function Candidate(cfg: Notifications, parse: DurationParser, k: nat): (n: Notifier)
    requires k <= 5
    ensures Rank(n) == k
  {
    match k
    case 0 => Console
    case 1 => Webhook(cfg.webhook.url, cfg.webhook.headers,
                      ParseDurationDefault(parse, cfg.webhook.timeout, DefaultHttpTimeout))
    case 2 => Feishu(cfg.feishu.webhook, cfg.feishu.enableAtAll,
                     ParseDurationDefault(parse, cfg.feishu.timeout, DefaultHttpTimeout),
                     cfg.feishu.titlePrefix, cfg.feishu.contentIntro)
    case 3 => DingTalk(cfg.dingTalk.webhook, cfg.dingTalk.secret, cfg.dingTalk.enableAtAll,
                       ParseDurationDefault(parse, cfg.dingTalk.timeout, DefaultHttpTimeout))
    case 4 => WeChat(cfg.weChat.webhook, ParseDurationDefault(parse, cfg.weChat.timeout, DefaultHttpTimeout))
    case 5 =>
      var e := cfg.email;
      Email(e.host, e.port, e.username, e.password, e.from, e.to, e.useTLS,
            e.tlsSkipVerify, e.subjectPrefix, ParseDurationDefault(parse, e.timeout, DefaultEmailTimeout))
  }

  /** `n` carries exactly the settings `BuildNotifiers` gives its kind. */
  predicate Configured(n: Notifier, cfg: Notifications, parse: DurationParser)
  {
    Rank(n) <= 5 && n == Candidate(cfg, parse, Rank(n))
  }

  /** Whether the configuration asks for the notifier of kind `k` (see `Rank`). */
  predicate Enabled(cfg: Notifications, k: nat)
  {
    match k
    case 0 => true
    case 1 => cfg.webhook.url != []
    case 2 => cfg.feishu.webhook != []
    case 3 => cfg.dingTalk.webhook != []
    case 4 => cfg.weChat.webhook != []
    case 5 => EmailConfigured(cfg.email)
    case _ => false
  }

  /**
   * What `BuildNotifiers` has built once it has decided kinds 0..`upTo`: the
   * kinds it holds are ordered, configured, and exactly the enabled ones so far.
   */
  predicate BuiltUpTo(ns: seq<Notifier>, cfg: Notifications, parse: DurationParser, upTo: nat)
  {
    && ns != [] && ns[0] == Console
    && Ordered(ns)
    && Rank(ns[|ns| - 1]) <= upTo
    && (forall i :: 0 <= i < |ns| ==> Configured(ns[i], cfg, parse))
    && (forall k :: 0 < k <= upTo ==> (HasKind(ns, k) <==> Enabled(cfg, k)))
  }

  /** Deciding kind `k` when it is enabled: append its notifier. */
  lemma AppendKind(ns: seq<Notifier>, x: Notifier, cfg: Notifications, parse: DurationParser, k: nat)
    requires 0 < k && BuiltUpTo(ns, cfg, parse, k - 1)
    requires Rank(x) == k && Configured(x, cfg, parse) && Enabled(cfg, k)
    ensures BuiltUpTo(ns + [x], cfg, parse, k)
  {
    var r := ns + [x];
    forall j | 0 < j <= k ensures HasKind(r, j) <==> Enabled(cfg, j) {
      HasKindAppend(ns, x, j);
      if j == k {
        assert r[|ns|] == x;
      } else {
        assert HasKind(ns, j) <==> Enabled(cfg, j);
      }
    }
  }

  /** Deciding kind `k` when it is disabled: the list stays as it is. */
  lemma SkipKind(ns: seq<Notifier>, cfg: Notifications, parse: DurationParser, k: nat)
    requires 0 < k && BuiltUpTo(ns, cfg, parse, k - 1)
    requires !Enabled(cfg, k)
    ensures BuiltUpTo(ns, cfg, parse, k)
  {
    forall i | 0 <= i < |ns| ensures Rank(ns[i]) < k {
      if i < |ns| - 1 {
        assert Rank(ns[i]) < Rank(ns[|ns| - 1]);
      }
    }
  }

  /** The notifier list after kinds 0..`upTo` have been decided, one conditional append each. */
  function Built(cfg: Notifications, parse: DurationParser, upTo: nat): seq<Notifier>
    requires upTo <= 5
  {
    if upTo == 0 then [Candidate(cfg, parse, 0)]
    else Built(cfg, parse, upTo - 1)
         + (if Enabled(cfg, upTo) then [Candidate(cfg, parse, upTo)] else [])
  }

  lemma {:induction false} BuiltIsBuiltUpTo(cfg: Notifications, parse: DurationParser, upTo: nat)
    requires upTo <= 5
    ensures BuiltUpTo(Built(cfg, parse, upTo), cfg, parse, upTo)
  {
    if upTo > 0 {
      BuiltIsBuiltUpTo(cfg, parse, upTo - 1);
      var before := Built(cfg, parse, upTo - 1);
      if Enabled(cfg, upTo) {
        AppendKind(before, Candidate(cfg, parse, upTo), cfg, parse, upTo);
      } else {
        assert Built(cfg, parse, upTo) == before;
        SkipKind(before, cfg, parse, upTo);
      }
    }
  }

  /**
   * The list `BuildNotifiers` returns: console first; kinds in the fixed order
   * console, webhook, feishu, dingtalk, wechat, email; each kind present exactly
   * when its settings enable it, and carrying those settings.
   */
  lemma NotifierSelection(cfg: Notifications, parse: DurationParser)
    ensures var ns := Built(cfg, parse, 5);
      && |ns| >= 1 && ns[0] == Console
      && Ordered(ns)
      && (HasKind(ns, 1) <==> cfg.webhook.url != [])
      && (HasKind(ns, 2) <==> cfg.feishu.webhook != [])
      && (HasKind(ns, 3) <==> cfg.dingTalk.webhook != [])
      && (HasKind(ns, 4) <==> cfg.weChat.webhook != [])
      && (HasKind(ns, 5) <==> EmailConfigured(cfg.email))
      && (forall i :: 0 <= i < |ns| ==> Configured(ns[i], cfg, parse))
  {
    BuiltIsBuiltUpTo(cfg, parse, 5);
    var ns := Built(cfg, parse, 5);
    assert forall k :: 0 < k <= 5 ==> (HasKind(ns, k) <==> Enabled(cfg, k));
    assert HasKind(ns, 1) <==> Enabled(cfg, 1);
    assert HasKind(ns, 2) <==> Enabled(cfg, 2);
    assert HasKind(ns, 3) <==> Enabled(cfg, 3);
    assert HasKind(ns, 4) <==> Enabled(cfg, 4);
    assert HasKind(ns, 5) <==> Enabled(cfg, 5);
  }

  /**
   * `BuildNotifiers`: console always; then webhook, feishu, dingtalk and wechat
   * when their URL or webhook is set; then email when host, sender and at least
   * one recipient are set. Timeouts default to 5 s (10 s for email). What this
   * list satisfies is `NotifierSelection`.
   */
  method BuildNotifiers(cfg: Notifications, parse: DurationParser) returns (notifiers: seq<Notifier>)
    ensures notifiers == Built(cfg, parse, 5)
    ensures |notifiers| >= 1 && notifiers[0] == Console
    ensures Ordered(notifiers)
  {
    notifiers := [Console];
    if cfg.webhook.url != [] {
      notifiers := notifiers + [Webhook(cfg.webhook.url, cfg.webhook.headers,
                                        ParseDurationDefault(parse, cfg.webhook.timeout, DefaultHttpTimeout))];
    }
    assert notifiers == Built(cfg, parse, 1);
    if cfg.feishu.webhook != [] {
      notifiers := notifiers + [Feishu(cfg.feishu.webhook, cfg.feishu.enableAtAll,
                                       ParseDurationDefault(parse, cfg.feishu.timeout, DefaultHttpTimeout),
                                       cfg.feishu.titlePrefix, cfg.feishu.contentIntro)];
    }
    assert notifiers == Built(cfg, parse, 2);
    if cfg.dingTalk.webhook != [] {
      notifiers := notifiers + [DingTalk(cfg.dingTalk.webhook, cfg.dingTalk.secret, cfg.dingTalk.enableAtAll,
                                         ParseDurationDefault(parse, cfg.dingTalk.timeout, DefaultHttpTimeout))];
    }
    assert notifiers == Built(cfg, parse, 3);
    if cfg.weChat.webhook != [] {
      notifiers := notifiers + [WeChat(cfg.weChat.webhook,
                                       ParseDurationDefault(parse, cfg.weChat.timeout, DefaultHttpTimeout))];
    }
    assert notifiers == Built(cfg, parse, 4);
    if EmailConfigured(cfg.email) {
      var e := cfg.email;
      notifiers := notifiers + [Email(e.host, e.port, e.username, e.password, e.from, e.to, e.useTLS,
                                      e.tlsSkipVerify, e.subjectPrefix,
                                      ParseDurationDefault(parse, e.timeout, DefaultEmailTimeout))];
    }
    assert notifiers == Built(cfg, parse, 5);
    NotifierSelection(cfg, parse);
  }

  /** In a list ordered by strictly increasing kind, as built above, no two notifiers share a name. */
  lemma OrderedNotifiersHaveDistinctNames(notifiers: seq<Notifier>)
    requires Ordered(notifiers)
    ensures forall i, j :: 0 <= i < j < |notifiers| ==> Name(notifiers[i]) != Name(notifiers[j])
  {
    forall i, j | 0 <= i < j < |notifiers|
      ensures Name(notifiers[i]) != Name(notifiers[j])
    {
      NamesIdentifyKinds(notifiers[i], notifiers[j]);
    }
  }
}
