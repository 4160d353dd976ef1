/**
 * The parts of Go's `time` package the engine and the notifiers use. Instants are
 * nanoseconds since an arbitrary epoch; a `time.Duration` is a signed 64-bit
 * count of nanoseconds. `time.ParseDuration` is a library parser that the model
 * does not reimplement: it is an arbitrary partial function handed in by the caller.
 */
module Time {
  import opened Wrappers
  import opened Bytes

  const MinDuration: int := -0x8000_0000_0000_0000
  const MaxDuration: int := 0x7FFF_FFFF_FFFF_FFFF

  type Duration = d: int | MinDuration <= d <= MaxDuration

  /** A point in time, in nanoseconds. */
  type Time = int

  const Second: Duration := 1_000_000_000
  const Minute: Duration := 60 * Second

  /** `time.ParseDuration`: `None` stands for a parse error. */
  type DurationParser = Bytes -> Option<Duration>

  /**
   * `t.Sub(u)`: the elapsed time, saturated at the bounds of `Duration` as Go does
   * when the true difference does not fit.
   */
  function Sub(t: Time, u: Time): (d: Duration)
    ensures MinDuration <= t - u <= MaxDuration ==> d == t - u
    ensures t - u > MaxDuration ==> d == MaxDuration
    ensures t - u < MinDuration ==> d == MinDuration
  {
    if t - u > MaxDuration then MaxDuration
    else if t - u < MinDuration then MinDuration
    else t - u
  }

  /** Later instants never give a smaller difference. */
  lemma SubMonotone(t: Time, t': Time, u: Time)
    requires t <= t'
    ensures Sub(t, u) <= Sub(t', u)
  {
  }

  /**
   * `parseDurationDefault` (notifier.go), and the same rule written out again in
   * the configuration getters and in `Dedup.GetQuietPeriod`: an empty string or a
   * string the parser rejects gives the default, anything else the parsed value.
   */
  function ParseDurationDefault(parse: DurationParser, s: Bytes, def: Duration): (d: Duration)
    ensures s == [] ==> d == def
    ensures s != [] && parse(s).None? ==> d == def
    ensures s != [] && parse(s).Some? ==> d == parse(s).value
  {
    if s == [] then def
    else match parse(s)
      case None => def
      case Some(v) => v
  }

  /** The function never fails: it yields the default or what the parser returned. */
  lemma ParseDurationDefaultTotal(parse: DurationParser, s: Bytes, def: Duration)
    ensures var d := ParseDurationDefault(parse, s, def);
            d == def || parse(s) == Some(d)
  {
  }

  /** Once the string parses, the default plays no part in the result. */
  lemma ParseDurationDefaultIgnoresDefault(parse: DurationParser, s: Bytes, def1: Duration, def2: Duration)
    requires s != [] && parse(s).Some?
    ensures ParseDurationDefault(parse, s, def1) == ParseDurationDefault(parse, s, def2)
  {
  }
}
