/** The rule data model of internal/alert/types.go. */
module Rules {
  import opened Wrappers
  import opened Bytes
  import opened Time

  /** `Threshold.CountGt` is a `*int`: absent or a count. */
  datatype Threshold = Threshold(countGt: Option<int>)

  datatype Dedup = Dedup(quietPeriod: Bytes)

  datatype Alerts = Alerts(channels: seq<Bytes>)

  /**
   * `Rule.DSL` is whatever YAML value the rule file holds under `dsl`; the
   * engine never looks inside it, so the model keeps it opaque.
   */
  datatype DslValue = DslValue(raw: Bytes)

  datatype Rule = Rule(
    name: Bytes,
    description: Bytes,
    index: Bytes,
    cron: Bytes,
    timeWindow: Bytes,
    queryString: Bytes,
    dsl: Option<DslValue>,
    threshold: Threshold,
    dedup: Dedup,
    alerts: Alerts,
    severity: Bytes)

  /**
   * `Dedup.GetQuietPeriod`: the rule's own quiet period when it is set and
   * parses, the engine default otherwise. It never fails.
   */
  function GetQuietPeriod(d: Dedup, parse: DurationParser, defaultVal: Duration): (q: Duration)
    ensures d.quietPeriod == [] ==> q == defaultVal
    ensures parse(d.quietPeriod).None? ==> q == defaultVal
    ensures d.quietPeriod != [] && parse(d.quietPeriod).Some? ==> q == parse(d.quietPeriod).value
    ensures q == defaultVal || parse(d.quietPeriod) == Some(q)
  {
    ParseDurationDefault(parse, d.quietPeriod, defaultVal)
  }

  /** When the rule's quiet period parses, changing the engine default changes nothing. */
  lemma QuietPeriodIndependentOfDefault(d: Dedup, parse: DurationParser, def1: Duration, def2: Duration)
    requires d.quietPeriod != [] && parse(d.quietPeriod).Some?
    ensures GetQuietPeriod(d, parse, def1) == GetQuietPeriod(d, parse, def2) == parse(d.quietPeriod).value
  {
  }
}
