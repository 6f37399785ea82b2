/**
 * Numeric conversions the app relies on: Swift's `rounded()` / C `round`
 * (round half away from zero), `Int(_ : Double)` (truncation toward zero),
 * `String(_ : Int)` (decimal rendering) and `Double(_ : String)` restricted to
 * the integer strings the app itself produces.  Doubles are modelled as `real`.
 */
module Numerics {
  import opened Wrappers

  /** Round to nearest, ties away from zero. */
  function RoundHalfAway(x: real): (r: int)
    ensures x - 0.5 <= r as real <= x + 0.5
    ensures r as real == x + 0.5 ==> x > 0.0
    ensures r as real == x - 0.5 ==> x < 0.0
  {
    if x >= 0.0 then (x + 0.5).Floor else -((-x + 0.5).Floor)
  }

  /** Rounding keeps order. */
  lemma RoundHalfAwayMonotone(x: real, y: real)
    requires x <= y
    ensures RoundHalfAway(x) <= RoundHalfAway(y)
  {
    if x < 0.0 <= y {
      assert (-x + 0.5).Floor >= 0;
    }
  }

  /** Truncation toward zero, as `Int(_ : Double)` does. */
  function TruncToZero(x: real): (r: int)
    ensures x >= 0.0 ==> 0.0 <= r as real <= x < r as real + 1.0
    ensures x < 0.0 ==> r as real - 1.0 < x <= r as real <= 0.0
  {
    if x >= 0.0 then x.Floor else -((-x).Floor)
  }

  function DigitChar(d: int): (c: char)
    requires 0 <= d < 10
  {
    "0123456789"[d]
  }

  predicate IsDigit(c: char) {
    '0' <= c <= '9'
  }

  function DigitValue(c: char): (d: int)
    requires IsDigit(c)
    ensures 0 <= d < 10
  {
    (c as int) - ('0' as int)
  }

  /** Decimal digits of a natural number, most significant first, with no leading zero. */
  function NatToString(n: nat): (s: string)
    ensures |s| > 0
    ensures forall i :: 0 <= i < |s| ==> IsDigit(s[i])
    ensures s[0] == '0' <==> n == 0
    ensures n == 0 ==> s == "0"
    decreases n
  {
    if n < 10 then [DigitChar(n)] else NatToString(n / 10) + [DigitChar(n % 10)]
  }

  /** Swift's `String(_ : Int)`: a leading '-' for negative values. */
  function IntToString(i: int): (s: string)
    ensures |s| > 0
    ensures s[0] == '-' <==> i < 0
    ensures forall k :: (if i < 0 then 1 else 0) <= k < |s| ==> IsDigit(s[k])
    ensures i < 0 ==> |s| > 1
    ensures i < 0 ==> s[1] != '0'
    ensures i >= 0 ==> (s[0] == '0' <==> i == 0)
    ensures i == 0 ==> s == "0"
  {
    if i < 0 then "-" + NatToString(-i) else NatToString(i)
  }

  /** The value of a non-empty run of decimal digits. */
  function ParseNat(s: string): (r: Option<nat>)
    ensures r.Some? <==> |s| > 0 && forall i :: 0 <= i < |s| ==> IsDigit(s[i])
    decreases |s|
  {
    if |s| == 0 || !IsDigit(s[|s| - 1]) then None
    else if |s| == 1 then Some(DigitValue(s[0]))
    else match ParseNat(s[..|s| - 1])
      case None => None
      case Some(v) => Some(v * 10 + DigitValue(s[|s| - 1]))
  }

  /** An optional '-' followed by decimal digits; anything else is not a number. */
  function ParseInt(s: string): (r: Option<int>)
    ensures |s| > 0 && s[0] == '-' ==>
      (r.Some? <==> |s| > 1 && forall k :: 1 <= k < |s| ==> IsDigit(s[k]))
    ensures !(|s| > 0 && s[0] == '-') ==>
      (r.Some? <==> |s| > 0 && forall k :: 0 <= k < |s| ==> IsDigit(s[k]))
    ensures r.Some? && r.value < 0 ==> s[0] == '-'
  {
    assert forall k :: 0 <= k < |s| - 1 ==> s[1..][k] == s[k + 1];
    if |s| > 0 && s[0] == '-' then
      match ParseNat(s[1..])
      case None => None
      case Some(v) => Some(-(v as int))
    else
      match ParseNat(s)
      case None => None
      case Some(v) => Some(v)
  }

  lemma {:induction false} ParseNatOfNatToString(n: nat)
    ensures ParseNat(NatToString(n)) == Some(n)
    decreases n
  {
    if n >= 10 {
      var s := NatToString(n);
      assert s[..|s| - 1] == NatToString(n / 10);
      ParseNatOfNatToString(n / 10);
    }
  }

  /** A non-empty digit run that does not start with '0' has a positive value. */
  lemma {:induction false} ParseNatPositive(s: string)
    requires |s| > 0 && (forall i :: 0 <= i < |s| ==> IsDigit(s[i])) && s[0] != '0'
    ensures ParseNat(s).Some? && ParseNat(s).value > 0
    decreases |s|
  {
    if |s| > 1 {
      ParseNatPositive(s[..|s| - 1]);
    }
  }

  /**
   * The other round trip: a digit run with no leading zero (or "0" itself)
   * is exactly the rendering of its value, so `NatToString` is the one
   * canonical spelling of each number.
   */
  lemma {:induction false} NatToStringOfParseNat(s: string)
    requires |s| > 0 && forall i :: 0 <= i < |s| ==> IsDigit(s[i])
    requires s[0] != '0' || s == "0"
    ensures NatToString(ParseNat(s).value) == s
    decreases |s|
  {
    var last := s[|s| - 1];
    assert DigitChar(DigitValue(last)) == last;
    if |s| > 1 {
      var init := s[..|s| - 1];
      NatToStringOfParseNat(init);
      ParseNatPositive(init);
      var v := ParseNat(s).value;
      assert v / 10 == ParseNat(init).value && v % 10 == DigitValue(last);
      assert s == init + [last];
    }
  }

  /** A '-' before a digit run reads as the run's value negated. */
  lemma ParseIntNegative(digits: string)
    requires ParseNat(digits).Some?
    ensures ParseInt("-" + digits) == Some(-(ParseNat(digits).value as int))
  {
    assert ("-" + digits)[1..] == digits;
  }

  /** Rendering an integer and reading it back gives the same integer. */
  lemma {:induction false} ParseIntOfIntToString(i: int)
    ensures ParseInt(IntToString(i)) == Some(i)
  {
    if i < 0 {
      ParseNatOfNatToString(-i);
      ParseIntNegative(NatToString(-i));
    } else {
      var digits := NatToString(i);
      assert digits == IntToString(i);
      assert digits[0] != '-' by { assert IsDigit(digits[0]); }
      ParseNatOfNatToString(i);
    }
  }

  /**
   * The other round trip for integers: an optional '-' then a digit run with
   * no leading zero, other than "-0", is exactly the rendering of its value.
   */
  lemma IntToStringOfParseInt(s: string)
    requires |s| > 0 && s != "-"
    requires s[0] != '-' ==> (forall i :: 0 <= i < |s| ==> IsDigit(s[i])) && (s[0] != '0' || s == "0")
    requires s[0] == '-' ==> (forall i :: 1 <= i < |s| ==> IsDigit(s[i])) && s[1] != '0'
    ensures ParseInt(s).Some? && IntToString(ParseInt(s).value) == s
  {
    if s[0] == '-' {
      var digits := s[1..];
      assert forall i :: 0 <= i < |digits| ==> digits[i] == s[i + 1];
      NatToStringOfParseNat(digits);
      ParseNatPositive(digits);
      assert s == "-" + digits;
    } else {
      NatToStringOfParseNat(s);
    }
  }
}
