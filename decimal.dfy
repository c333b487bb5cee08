/**
 * Decimal text of integers, as produced by `std::to_string` and by
 * `operator<<` on an integer stream argument, together with a parser that
 * undoes it.
 */
module Decimal {
  import opened Wrappers

  predicate IsDigit(c: char) {
    '0' <= c <= '9'
  }

  predicate AllDigits(s: string) {
    forall i :: 0 <= i < |s| ==> IsDigit(s[i])
  }

  function DigitChar(d: nat): (c: char)
    requires d < 10
    ensures IsDigit(c) && c as int - '0' as int == d
  {
    ('0' as int + d) as char
  }

  /** Shortest decimal text of a natural number (no sign, no leading zeros). */
  function NatToString(n: nat): (s: string)
    ensures |s| >= 1 && AllDigits(s)
    ensures |s| > 1 ==> s[0] != '0'
    decreases n
  {
    if n < 10 then [DigitChar(n)] else NatToString(n / 10) + [DigitChar(n % 10)]
  }

  /** Decimal text of an integer; negative values get a leading '-'. */
  function IntToString(i: int): (s: string)
    ensures |s| >= 1
    ensures forall k :: 0 <= k < |s| ==> IsDigit(s[k]) || (k == 0 && s[k] == '-')
    ensures (s[0] == '-') <==> i < 0
  {
    if i < 0 then "-" + NatToString(-i) else NatToString(i)
  }

  /** The value of a string of digits, read most significant first. */
  function DigitsValue(s: string): nat
    requires AllDigits(s)
  {
    if s == [] then 0 else DigitsValue(s[..|s| - 1]) * 10 + (s[|s| - 1] as int - '0' as int)
  }

  /** Reads back a natural number: one or more digits, nothing else. */
  function ParseNat(s: string): (r: Option<nat>)
    ensures r.Some? <==> |s| >= 1 && AllDigits(s)
  {
    if |s| >= 1 && AllDigits(s) then Some(DigitsValue(s)) else None
  }

  /** Reads back an integer: an optional '-' followed by a natural number. */
  function ParseInt(s: string): (r: Option<int>)
    ensures r.Some? && |s| >= 1 && s[0] == '-' ==> r.value <= 0
    ensures r.Some? && |s| >= 1 && s[0] != '-' ==> r.value >= 0
  {
    if |s| >= 1 && s[0] == '-' then
      match ParseNat(s[1..])
      case Some(v) => Some(-(v as int))
      case None => None
    else
      match ParseNat(s)
      case Some(v) => Some(v as int)
      case None => None
  }

  lemma {:induction false} NatRoundTrip(n: nat)
    ensures ParseNat(NatToString(n)) == Some(n)
    decreases n
  {
    var s := NatToString(n);
    if n >= 10 {
      NatRoundTrip(n / 10);
      assert s[..|s| - 1] == NatToString(n / 10);
      assert DigitsValue(s) == DigitsValue(NatToString(n / 10)) * 10 + n % 10;
    }
  }

  lemma IntRoundTrip(i: int)
    ensures ParseInt(IntToString(i)) == Some(i)
  {
    var s := IntToString(i);
    if i < 0 {
      assert s[1..] == NatToString(-i);
      NatRoundTrip(-i);
    } else {
      NatRoundTrip(i);
    }
  }

  /** Different integers print differently. */
  lemma IntToStringInjective(i: int, j: int)
    requires IntToString(i) == IntToString(j)
    ensures i == j
  {
    IntRoundTrip(i);
    IntRoundTrip(j);
  }

  /** The decimal text never holds a space, so it can be split out of a line. */
  lemma IntToStringHasNoSpace(i: int)
    ensures ' ' !in IntToString(i)
  {
  }
}
