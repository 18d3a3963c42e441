/**
 * The arithmetic of the C# runtime that differs from Dafny's own:
 * truncating integer division, banker's rounding, and the single-precision
 * value of pi that Unity's `Mathf.PI` and `(float)Math.PI` hold.
 */
module Arith {

  /** `Mathf.PI`, i.e. pi rounded to the nearest single-precision float, written exactly. */
  const FloatPi: real := 3.1415927410125732421875

  /** `toRad`, `(float)Math.PI / 180`: degrees to radians. */
  const ToRad: real := FloatPi / 180.0

  function Abs(x: int): nat { if x < 0 then -x else x }

  function AbsReal(x: real): real { if x < 0.0 then -x else x }

  function MaxInt(a: int, b: int): int { if a < b then b else a }

  function MinReal(a: real, b: real): real { if a < b then a else b }

  function MaxReal(a: real, b: real): real { if a < b then b else a }

  /**
   * C#'s integer `/`: the quotient is truncated toward zero, so the remainder
   * takes the sign of the dividend (Dafny's own `/` is Euclidean).
   */
  function TruncDiv(a: int, b: int): (q: int)
    requires b != 0
    ensures Abs(a - b * q) < Abs(b)
    ensures a >= 0 ==> a - b * q >= 0
    ensures a <= 0 ==> a - b * q <= 0
  {
    var x, y := Abs(a), Abs(b);
    var q0 := x / y;
    EuclidRemainder(x, y);
    MulNegate(y, q0);
    MulNegate(b, q0);
    if (a >= 0) == (b > 0) then q0 else -q0
  }

  lemma MulNegate(x: int, y: int)
    ensures (-x) * y == -(x * y) && x * (-y) == -(x * y)
  {
  }

  lemma EuclidRemainder(x: nat, y: int)
    requires y > 0
    ensures 0 <= x - y * (x / y) < y
  {
  }

  /** Truncation is symmetric in the sign of the dividend. */
  lemma TruncDivNegate(a: int, b: int)
    requires b != 0
    ensures TruncDiv(-a, b) == -TruncDiv(a, b)
  {
  }

  /**
   * `Math.Round` with its default `MidpointRounding.ToEven`, which is also what
   * `Mathf.RoundToInt` does: the nearest integer, ties to the even one.
   */
  function RoundHalfEven(x: real): (n: int)
    ensures -0.5 <= n as real - x <= 0.5
    ensures (n as real - x == 0.5 || x - n as real == 0.5) ==> n % 2 == 0
  {
    var f := x.Floor;
    var frac := x - f as real;
    if frac < 0.5 then f
    else if frac > 0.5 then f + 1
    else if f % 2 == 0 then f
    else f + 1
  }

  /** The two contract clauses of RoundHalfEven pin its result down uniquely. */
  lemma RoundHalfEvenUnique(x: real, n: int)
    requires -0.5 <= n as real - x <= 0.5
    requires (n as real - x == 0.5 || x - n as real == 0.5) ==> n % 2 == 0
    ensures n == RoundHalfEven(x)
  {
  }
}
