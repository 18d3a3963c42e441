/**
 * The Newton solver for Kepler's equation E - e sin E = M in
 * `EclipticCoords.eccentricAnomaly`. Sine and cosine are parameters: only
 * the bound |cos x| <= 1 is used.
 */
module Kepler {
  import opened Arith

  const MaxIter: nat := 100
  const Tolerance: real := 0.00001

  /** A function whose values all lie in [-1, 1], as a cosine's do. */
  ghost predicate UnitBounded(f: real -> real)
  {
    forall x :: -1.0 <= f(x) <= 1.0
  }

  /** The one-step approximation the iteration starts from (celestialSphere.cs:74). */
  function FirstEstimate(M: real, e: real, sin: real -> real, cos: real -> real): real
  {
    M + e * sin(M) * (1.0 + e * cos(M))
  }

  /** For an elliptical orbit the Newton denominator 1 - e cos E is at least 1 - e > 0. */
  lemma NewtonDenominatorPositive(e: real, c: real)
    requires 0.0 <= e < 1.0 && -1.0 <= c <= 1.0
    ensures 1.0 - e * c >= 1.0 - e > 0.0
  {
  }

  /**
   * One Newton step (celestialSphere.cs:79). It never divides by zero, and it
   * leaves E where it is exactly when E already solves Kepler's equation.
   */
  function NewtonStep(E: real, M: real, e: real, sin: real -> real, cos: real -> real): (next: real)
    requires 0.0 <= e < 1.0 && UnitBounded(cos)
    ensures next == E <==> E - e * sin(E) == M
  {
    var residual, slope := E - e * sin(E) - M, 1.0 - e * cos(E);
    NewtonDenominatorPositive(e, cos(E));
    QuotientZero(residual, slope);
    E - residual / slope
  }

  lemma QuotientZero(x: real, d: real)
    requires d > 0.0
    ensures x / d == 0.0 <==> x == 0.0
  {
    if x / d == 0.0 {
      assert x == (x / d) * d;
    }
  }

  /** The estimate after n Newton steps from the first estimate. */
  function Estimate(n: nat, M: real, e: real, sin: real -> real, cos: real -> real): real
    requires 0.0 <= e < 1.0 && UnitBounded(cos)
  {
    if n == 0 then FirstEstimate(M, e, sin, cos)
    else NewtonStep(Estimate(n - 1, M, e, sin, cos), M, e, sin, cos)
  }

  /** How far the k-th Newton step moved the estimate. */
  function StepSize(k: nat, M: real, e: real, sin: real -> real, cos: real -> real): real
    requires k >= 1 && 0.0 <= e < 1.0 && UnitBounded(cos)
  {
    AbsReal(Estimate(k, M, e, sin, cos) - Estimate(k - 1, M, e, sin, cos))
  }

  /**
   * `eccentricAnomaly` (celestialSphere.cs:71-84). The guard
   * `diff > 1e-5 && iter++ < maxIter` only increments `iter` when the
   * tolerance test passes; `iter` itself is not returned, so the model returns
   * the number of Newton steps run. The body runs at least once (diff starts
   * at 1) and at most 100 times; it stops at the first step that moves the
   * estimate by no more than the tolerance, else after 100 steps, and returns
   * the last estimate either way.
   */
  method EccentricAnomaly(M: real, e: real, sin: real -> real, cos: real -> real)
    returns (E: real, steps: nat)
    requires 0.0 <= e < 1.0 && UnitBounded(cos)
    ensures 1 <= steps <= MaxIter
    ensures E == Estimate(steps, M, e, sin, cos)
    ensures steps < MaxIter ==> StepSize(steps, M, e, sin, cos) <= Tolerance
    ensures forall k :: 1 <= k < steps ==> StepSize(k, M, e, sin, cos) > Tolerance
  {
    var E0 := FirstEstimate(M, e, sin, cos);
    var diff := 1.0;
    var iter := 0;
    while diff > Tolerance && iter < MaxIter
      invariant 0 <= iter <= MaxIter
      decreases MaxIter - iter
      invariant E0 == Estimate(iter, M, e, sin, cos)
      invariant iter == 0 ==> diff == 1.0
      invariant iter > 0 ==> diff == StepSize(iter, M, e, sin, cos)
      invariant forall k :: 1 <= k < iter ==> StepSize(k, M, e, sin, cos) > Tolerance
    {
      iter := iter + 1;
      var E1 := NewtonStep(E0, M, e, sin, cos);
      assert E1 == Estimate(iter, M, e, sin, cos);
      diff := AbsReal(E1 - E0);
      E0 := E1;
    }
    assert iter >= 1;
    E, steps := E0, iter;
  }

  /** An estimate the solver can no longer move solves Kepler's equation exactly. */
  lemma StationaryEstimateSolves(n: nat, M: real, e: real, sin: real -> real, cos: real -> real)
    requires 0.0 <= e < 1.0 && UnitBounded(cos)
    requires Estimate(n + 1, M, e, sin, cos) == Estimate(n, M, e, sin, cos)
    ensures Estimate(n, M, e, sin, cos) - e * sin(Estimate(n, M, e, sin, cos)) == M
  {
  }
}
