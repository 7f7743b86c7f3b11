/** Ruby's `Integer#to_s` for non-negative integers (the decimal digits used by the
    colour's string form) and the decimal value of a digit string, its inverse. */
module Decimal {

  predicate IsDigit(c: char)
  {
    '0' <= c <= '9'
  }

  predicate AllDigits(s: string)
  {
    forall i :: 0 <= i < |s| ==> IsDigit(s[i])
  }

  function DigitChar(d: nat): (c: char)
    requires d < 10
    ensures IsDigit(c)
  {
    (('0' as int) + d) as char
  }

  function DigitValue(c: char): int
  {
    (c as int) - ('0' as int)
  }

  /** The decimal form of `n`, without sign or leading zeros: a non-empty string of digits. */
  function NatToString(n: nat): (s: string)
    ensures |s| > 0 && AllDigits(s)
    ensures n < 10 <==> |s| == 1
    ensures n > 0 ==> s[0] != '0'
    decreases n
  {
    if n < 10 then [DigitChar(n)] else NatToString(n / 10) + [DigitChar(n % 10)]
  }

  /** The number a string of decimal digits denotes. */
  function ValueOf(s: string): int
  {
    if s == [] then 0 else 10 * ValueOf(s[..|s| - 1]) + DigitValue(s[|s| - 1])
  }

  /** Reading the digits back gives the number: the decimal form loses nothing. */
  lemma {:induction false} ValueOfNatToString(n: nat)
    ensures ValueOf(NatToString(n)) == n
    decreases n
  {
    var s := NatToString(n);
    if n >= 10 {
      ValueOfNatToString(n / 10);
      assert s[..|s| - 1] == NatToString(n / 10);
    }
  }

  /** Distinct numbers have distinct decimal forms. */
  lemma NatToStringInjective(a: nat, b: nat)
    requires NatToString(a) == NatToString(b)
    ensures a == b
  {
    ValueOfNatToString(a);
    ValueOfNatToString(b);
  }

  /** A digit string followed by a non-digit can be split only one way:
      if `x + r1 == y + r2` where `x` and `y` are digits and `r1`, `r2` start with a non-digit,
      then `x == y` and `r1 == r2`. */
  lemma DigitsPrefixUnique(x: string, y: string, r1: string, r2: string)
    requires AllDigits(x) && AllDigits(y)
    requires |r1| > 0 && |r2| > 0 && !IsDigit(r1[0]) && !IsDigit(r2[0])
    requires x + r1 == y + r2
    ensures x == y && r1 == r2
  {
    // At the shorter length, a digit on one side would face a non-digit on the other.
    var n := if |x| < |y| then |x| else |y|;
    assert IsDigit((x + r1)[n]) <==> n < |x|;
    assert IsDigit((y + r2)[n]) <==> n < |y|;
    assert x == (x + r1)[..|x|];
    assert y == (y + r2)[..|y|];
    assert r1 == (x + r1)[|x|..];
    assert r2 == (y + r2)[|y|..];
  }
}
