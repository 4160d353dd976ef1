/**
 * What `Engine.loadRules` (internal/alert/engine.go) accepts. Reading the
 * directory, reading each file and YAML decoding are I/O and a foreign parser:
 * the model receives, per directory entry, what reading and decoding it yields.
 */
module RuleLoader {
  import opened Wrappers
  import opened Bytes
  import opened Rules

  /** The outcome of `os.ReadFile` followed by `yaml.Unmarshal` for one entry. */
  datatype RuleFile = Unreadable | Malformed | Parsed(rule: Rule)

  /** One entry of `os.ReadDir`, with what reading it as a rule file would give. */
  datatype DirEntry = DirEntry(name: Bytes, isDir: bool, file: RuleFile)

  /** Why the load failed; each per-file error names the entry. */
  datatype LoadError =
    | ReadDirError
    | ReadRuleError(file: Bytes)
    | UnmarshalRuleError(file: Bytes)
    | InvalidRuleError(file: Bytes)

  const YamlSuffix: Bytes := [46, 121, 97, 109, 108]  // ".yaml"
  const YmlSuffix: Bytes := [46, 121, 109, 108]  // ".yml"

  /** Only non-directory entries named `*.yaml` or `*.yml` are rule files. */
  predicate IsRuleFile(e: DirEntry)
  {
    !e.isDir && (HasSuffix(e.name, YamlSuffix) || HasSuffix(e.name, YmlSuffix))
  }

  /** The four fields every rule must set. */
  predicate ValidRule(r: Rule)
  {
    r.name != [] && r.index != [] && r.cron != [] && r.timeWindow != []
  }

  /** A rule file that reads, decodes and validates. */
  predicate GoodRuleFile(e: DirEntry)
  {
    e.file.Parsed? && ValidRule(e.file.rule)
  }

  /** The error `loadRules` reports for a rule file that is not good. */
  function ErrorFor(e: DirEntry): LoadError
  {
    match e.file
    case Unreadable => ReadRuleError(e.name)
    case Malformed => UnmarshalRuleError(e.name)
    case Parsed(_) => InvalidRuleError(e.name)
  }

  /**
   * One iteration of the loop: skip the entry, accept its rule, or stop with
   * an error.
   */
  function CheckEntry(e: DirEntry): Result<Option<Rule>, LoadError>
  {
    if !IsRuleFile(e) then Success(None)
    else if GoodRuleFile(e) then Success(Some(e.file.rule))
    else Failure(ErrorFor(e))
  }

  /** The loop state after one more entry: an earlier error stands, otherwise `CheckEntry` decides. */
  function Step(acc: Result<seq<Rule>, LoadError>, e: DirEntry): Result<seq<Rule>, LoadError>
  {
    match acc
    case Failure(err) => Failure(err)
    case Success(rules) =>
      match CheckEntry(e)
      case Failure(err) => Failure(err)
      case Success(None) => Success(rules)
      case Success(Some(r)) => Success(rules + [r])
  }

  /** The loop over `entries` in enumeration order, stopping at the first error. */
  function LoadAll(entries: seq<DirEntry>): Result<seq<Rule>, LoadError>
  {
    if entries == [] then Success([])
    else Step(LoadAll(entries[..|entries| - 1]), entries[|entries| - 1])
  }

  lemma LoadAllSnoc(entries: seq<DirEntry>, e: DirEntry)
    ensures LoadAll(entries + [e]) == Step(LoadAll(entries), e)
  {
    assert (entries + [e])[..|entries|] == entries;
  }

  /** The rule files among `entries`, in order: the reference the loop is checked against. */
  function RuleFiles(entries: seq<DirEntry>): (files: seq<DirEntry>)
    ensures forall f :: f in files ==> f in entries && IsRuleFile(f)
  {
    if entries == [] then []
    else (if IsRuleFile(entries[0]) then [entries[0]] else []) + RuleFiles(entries[1..])
  }

  lemma {:induction false} RuleFilesSnoc(entries: seq<DirEntry>, e: DirEntry)
    ensures RuleFiles(entries + [e]) == RuleFiles(entries) + (if IsRuleFile(e) then [e] else [])
  {
    if entries == [] {
      assert entries + [e] == [e];
    } else {
      assert (entries + [e])[1..] == entries[1..] + [e];
      RuleFilesSnoc(entries[1..], e);
    }
  }

  /** Entries that are not rule files play no part: loading only the rule files gives the same outcome. */
  lemma {:induction false} OnlyRuleFilesMatter(entries: seq<DirEntry>)
    ensures LoadAll(entries) == LoadAll(RuleFiles(entries))
  {
    if entries != [] {
      var init, last := entries[..|entries| - 1], entries[|entries| - 1];
      assert entries == init + [last];
      RuleFilesSnoc(init, last);
      OnlyRuleFilesMatter(init);
      assert LoadAll(entries) == Step(LoadAll(init), last);
      if IsRuleFile(last) {
        assert RuleFiles(entries) == RuleFiles(init) + [last];
        LoadAllSnoc(RuleFiles(init), last);
      } else {
        assert RuleFiles(entries) == RuleFiles(init);
        assert Step(LoadAll(init), last) == LoadAll(init);
      }
    }
  }

  /** Once a prefix of the entries has failed, the whole load fails with that error. */
  lemma {:induction false} LoadFailurePersists(entries: seq<DirEntry>, k: nat)
    requires k <= |entries|
    requires LoadAll(entries[..k]).Failure?
    ensures LoadAll(entries) == LoadAll(entries[..k])
  {
    if k < |entries| {
      assert entries[..|entries| - 1][..k] == entries[..k];
      LoadFailurePersists(entries[..|entries| - 1], k);
    } else {
      assert entries[..k] == entries;
    }
  }

  /** All or nothing: the load succeeds exactly when every rule file is good. */
  lemma {:induction false} LoadAllSucceeds(entries: seq<DirEntry>)
    ensures LoadAll(entries).Success? <==> forall i :: 0 <= i < |entries| && IsRuleFile(entries[i]) ==> GoodRuleFile(entries[i])
  {
    if entries != [] {
      var init, last := entries[..|entries| - 1], entries[|entries| - 1];
      LoadAllSucceeds(init);
      if LoadAll(init).Failure? {
        var i :| 0 <= i < |init| && IsRuleFile(init[i]) && !GoodRuleFile(init[i]);
        assert entries[i] == init[i];
      } else {
        forall i | 0 <= i < |init| && IsRuleFile(init[i])
          ensures GoodRuleFile(entries[i])
        {
          assert entries[i] == init[i];
        }
      }
    }
  }

  /** `rules` are the rules of `files`, one for one and in order, and each file is good. */
  predicate RulesOf(rules: seq<Rule>, files: seq<DirEntry>)
  {
    && |rules| == |files|
    && forall i :: 0 <= i < |files| ==> GoodRuleFile(files[i]) && rules[i] == files[i].file.rule
  }

  lemma RulesOfSnoc(rules: seq<Rule>, files: seq<DirEntry>, f: DirEntry)
    requires RulesOf(rules, files) && GoodRuleFile(f)
    ensures RulesOf(rules + [f.file.rule], files + [f])
  {
    var v, fs := rules + [f.file.rule], files + [f];
    forall i | 0 <= i < |fs|
      ensures GoodRuleFile(fs[i]) && v[i] == fs[i].file.rule
    {
      if i < |files| {
        assert fs[i] == files[i] && v[i] == rules[i];
      }
    }
  }

  /** A successful load yields the rules of the rule files, in enumeration order. */
  lemma {:induction false} LoadedRulesInOrder(entries: seq<DirEntry>)
    requires LoadAll(entries).Success?
    ensures RulesOf(LoadAll(entries).value, RuleFiles(entries))
  {
    if entries != [] {
      var init, last := entries[..|entries| - 1], entries[|entries| - 1];
      assert LoadAll(entries) == Step(LoadAll(init), last);
      LoadedRulesInOrder(init);
      assert entries == init + [last];
      RuleFilesSnoc(init, last);
      if IsRuleFile(last) {
        RulesOfSnoc(LoadAll(init).value, RuleFiles(init), last);
      }
    }
  }

  /**
   * On failure the error is that of the first rule file that is not good;
   * every rule file before it is good.
   */
  lemma {:induction false} LoadAllFailsAtFirstBadFile(entries: seq<DirEntry>)
    requires LoadAll(entries).Failure?
    ensures exists i :: (&& 0 <= i < |entries| && IsRuleFile(entries[i]) && !GoodRuleFile(entries[i])
                         && LoadAll(entries).error == ErrorFor(entries[i])
                         && forall j :: 0 <= j < i && IsRuleFile(entries[j]) ==> GoodRuleFile(entries[j]))
  {
    var init, last := entries[..|entries| - 1], entries[|entries| - 1];
    if LoadAll(init).Failure? {
      LoadAllFailsAtFirstBadFile(init);
      var i :| 0 <= i < |init| && IsRuleFile(init[i]) && !GoodRuleFile(init[i])
        && LoadAll(init).error == ErrorFor(init[i])
        && forall j :: 0 <= j < i && IsRuleFile(init[j]) ==> GoodRuleFile(init[j]);
      assert entries[i] == init[i];
      assert forall j :: 0 <= j < i ==> entries[j] == init[j];
    } else {
      LoadAllSucceeds(init);
      var i := |entries| - 1;
      assert forall j :: 0 <= j < i ==> entries[j] == init[j];
    }
  }

  /** Every rule a successful load installs has its four required fields set. */
  lemma LoadedRulesAreValid(entries: seq<DirEntry>)
    requires LoadAll(entries).Success?
    ensures forall r :: r in LoadAll(entries).value ==> ValidRule(r)
  {
    LoadedRulesInOrder(entries);
    var files := RuleFiles(entries);
    forall r | r in LoadAll(entries).value ensures ValidRule(r) {
      var i :| 0 <= i < |LoadAll(entries).value| && LoadAll(entries).value[i] == r;
      assert files[i] in files;
      var k :| 0 <= k < |entries| && entries[k] == files[i];
    }
  }
}
