/** Ruby's numeric values as the CMYK code sees them, taken exactly:
    an Integer (the `Fixnum` class of the Ruby versions the code targets) or a Float,
    and `Float#round`, which rounds to the nearest integer with halves away from zero. */
module RubyNumbers {

  /** A Ruby number. `Float` carries its value as an exact real; IEEE-754 effects are not modelled. */
  datatype Num = Int(i: int) | Float(x: real)

  /** The numeric value of a Ruby number. */
  function ToReal(n: Num): real
  {
    match n
    case Int(i) => i as real
    case Float(x) => x
  }

  /** `Float#round` (and `Integer#round`): the nearest integer, halves rounded away from zero.
      The postconditions characterise the result without reference to the body:
      it is within one half of `x`, and a tie goes away from zero. */
  function Round(x: real): (r: int)
    ensures x - 0.5 <= r as real <= x + 0.5
    ensures x >= 0.0 ==> x < r as real + 0.5
    ensures x < 0.0 ==> r as real - 0.5 < x
  {
    if x >= 0.0 then (x + 0.5).Floor else -((-x + 0.5).Floor)
  }

  /** The characterisation in Round's postconditions picks exactly one integer. */
  lemma RoundUnique(x: real, n: int)
    requires x - 0.5 <= n as real <= x + 0.5
    requires x >= 0.0 ==> x < n as real + 0.5
    requires x < 0.0 ==> n as real - 0.5 < x
    ensures n == Round(x)
  {
  }

  /** Rounding an integral value gives it back: `(20 * 2).round == 40`. */
  lemma RoundIntegral(n: int)
    ensures Round(n as real) == n
  {
    RoundUnique(n as real, n);
  }
}
