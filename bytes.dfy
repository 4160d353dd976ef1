/**
 * Go strings are byte sequences: `len`, slicing and indexing count bytes.
 * This module fixes the byte representation used by every other module and
 * the `strings` and `fmt` helpers the engine, the renderer and the notifiers use.
 */
module Bytes {

  type byte = x: int | 0 <= x < 256

  type Bytes = seq<byte>

  /** Concatenation regroups; the verifier does not always find this on its own. */
  lemma AppendAssoc<T>(x: seq<T>, y: seq<T>, z: seq<T>)
    ensures x + y + z == x + (y + z)
  {
  }

  /** strings.HasSuffix */
  predicate HasSuffix(s: Bytes, suffix: Bytes)
  {
    |suffix| <= |s| && s[|s| - |suffix|..] == suffix
  }

  /** A string ends with `suffix` exactly when it is some string followed by `suffix`. */
  lemma HasSuffixIff(s: Bytes, suffix: Bytes)
    ensures HasSuffix(s, suffix) <==> exists p: Bytes :: s == p + suffix
  {
    if HasSuffix(s, suffix) {
      var p := s[..|s| - |suffix|];
      assert s == p + suffix;
    }
  }

  /** strings.TrimRight(s, "/"): drops every trailing '/' byte. */
  function TrimTrailingSlashes(s: Bytes): (r: Bytes)
    ensures |r| <= |s| && r == s[..|r|]
    ensures r == [] || r[|r| - 1] != '/' as int
    ensures forall i :: |r| <= i < |s| ==> s[i] == '/' as int
  {
    if s != [] && s[|s| - 1] == '/' as int then TrimTrailingSlashes(s[..|s| - 1]) else s
  }

  /** strings.Join */
  function Join(parts: seq<Bytes>, sep: Bytes): Bytes
  {
    if parts == [] then []
    else if |parts| == 1 then parts[0]
    else parts[0] + sep + Join(parts[1..], sep)
  }

  /** Joining one more part appends the separator and that part (no separator before the first). */
  lemma {:induction false} JoinSnoc(parts: seq<Bytes>, p: Bytes, sep: Bytes)
    ensures Join(parts + [p], sep) == if parts == [] then p else Join(parts, sep) + sep + p
    decreases |parts|
  {
    if |parts| >= 2 {
      assert (parts + [p])[1..] == parts[1..] + [p];
      JoinSnoc(parts[1..], p, sep);
      AppendAssoc(parts[0] + sep, Join(parts[1..], sep), sep + p);
      AppendAssoc(Join(parts[1..], sep), sep, p);
      AppendAssoc(parts[0] + sep + Join(parts[1..], sep), sep, p);
    } else if |parts| == 1 {
      assert (parts + [p])[1..] == [p];
    }
  }

  /** The decimal digits of a natural number, most significant first, with no leading zero. */
  function Digits(n: nat): (r: Bytes)
    ensures r != []
    ensures forall i :: 0 <= i < |r| ==> '0' as int <= r[i] <= '9' as int
    ensures n > 0 ==> r[0] != '0' as int
  {
    if n < 10 then ['0' as int + n]
    else
      var high := Digits(n / 10);
      assert (high + ['0' as int + n % 10])[0] == high[0];
      high + ['0' as int + n % 10]
  }

  /** The number a string of decimal digits denotes, most significant first. */
  function DigitsValue(s: Bytes): int
  {
    if s == [] then 0 else DigitsValue(s[..|s| - 1]) * 10 + (s[|s| - 1] - '0' as int)
  }

  /** Reading the digits back gives the number. */
  lemma {:induction false} DigitsRoundTrip(n: nat)
    ensures DigitsValue(Digits(n)) == n
  {
    if n >= 10 {
      var high := Digits(n / 10);
      var r := high + ['0' as int + n % 10];
      assert r[..|r| - 1] == high;
      DigitsRoundTrip(n / 10);
    } else {
      assert Digits(n)[..0] == [];
    }
  }

  /** fmt's %d of an integer. */
  function Decimal(n: int): (r: Bytes)
    ensures r != []
    ensures (n < 0) <==> (r[0] == '-' as int)
  {
    if n < 0 then ['-' as int] + Digits(-n) else Digits(n)
  }

  /** The number a %d string denotes: an optional '-' followed by digits. */
  function DecimalValue(s: Bytes): int
  {
    if s != [] && s[0] == '-' as int then -DigitsValue(s[1..]) else DigitsValue(s)
  }

  /** Reading the %d string back gives the number, so different numbers print differently. */
  lemma DecimalRoundTrip(n: int)
    ensures DecimalValue(Decimal(n)) == n
  {
    if n < 0 {
      assert Decimal(n)[1..] == Digits(-n);
      DigitsRoundTrip(-n);
    } else {
      DigitsRoundTrip(n);
    }
  }

  lemma DecimalInjective(a: int, b: int)
    ensures Decimal(a) == Decimal(b) <==> a == b
  {
    DecimalRoundTrip(a);
    DecimalRoundTrip(b);
  }
}
