/**
 * Decimal rendering of non-negative integers, together with the parser that
 * reads such a rendering back. For whole numbers up to 2^53 this is what
 * JavaScript's `Number.prototype.toString()` writes for the pixel sizes and
 * rotation angles the clock formats (every angle is at most 360). Larger
 * numbers are not exact in JavaScript, and from 10^21 on it switches to
 * exponent form ("1e+21"); this rendering keeps writing plain digits.
 */
module Decimal {

  predicate IsDigit(c: char) {
    '0' <= c <= '9'
  }

  predicate IsDigits(s: string) {
    forall i :: 0 <= i < |s| ==> IsDigit(s[i])
  }

  /** A rendering without leading zeros: what `toString()` gives for an integer. */
  predicate IsCanonical(s: string) {
    |s| >= 1 && IsDigits(s) && (s[0] == '0' ==> |s| == 1)
  }

  function DigitChar(d: nat): (c: char)
    requires d < 10
    ensures IsDigit(c) && c as int - '0' as int == d
  {
    ('0' as int + d) as char
  }

  function DigitValue(c: char): (d: nat)
    requires IsDigit(c)
    ensures d < 10 && DigitChar(d) == c
  {
    c as int - '0' as int
  }

  /** `n.toString()` for a whole number `0 <= n <= 2^53`; plain digits for every larger `n`. */
  function ToString(n: nat): (s: string)
    ensures IsCanonical(s)
    ensures s[0] == '0' <==> n == 0
    ensures |s| == 1 <==> n < 10
    decreases n
  {
    if n < 10 then [DigitChar(n)] else ToString(n / 10) + [DigitChar(n % 10)]
  }

  /** The value of a string of decimal digits (the empty string reads as 0). */
  function Parse(s: string): (n: nat)
    requires IsDigits(s)
    decreases |s|
  {
    if s == [] then 0 else Parse(s[..|s| - 1]) * 10 + DigitValue(s[|s| - 1])
  }

  /** Reading back what `ToString` wrote gives the number that was written. */
  lemma {:induction false} ParseToString(n: nat)
    ensures Parse(ToString(n)) == n
    decreases n
  {
    if n >= 10 {
      var s := ToString(n);
      ParseToString(n / 10);
      assert s[..|s| - 1] == ToString(n / 10);
    }
  }

  /** A digit string with a leading non-zero digit has a positive value. */
  lemma {:induction false} ParsePositive(s: string)
    requires |s| >= 1 && IsDigits(s) && s[0] != '0'
    ensures Parse(s) >= 1
    decreases |s|
  {
    if |s| > 1 {
      ParsePositive(s[..|s| - 1]);
    }
  }

  /** Every canonical rendering is the `ToString` of its own value. */
  lemma {:induction false} ToStringParse(s: string)
    requires IsCanonical(s)
    ensures ToString(Parse(s)) == s
    decreases |s|
  {
    if |s| > 1 {
      var init := s[..|s| - 1];
      assert IsCanonical(init);
      ToStringParse(init);
      ParsePositive(init);
      var n := Parse(s);
      assert n / 10 == Parse(init) && n % 10 == DigitValue(s[|s| - 1]);
      assert s == init + [s[|s| - 1]];
    }
  }

  /** Distinct numbers are rendered as distinct strings. */
  lemma ToStringInjective(a: nat, b: nat)
    ensures ToString(a) == ToString(b) <==> a == b
  {
    ParseToString(a);
    ParseToString(b);
  }
}
