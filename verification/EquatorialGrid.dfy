/**
 * The layout arithmetic of `equatorialGrid.Start`: how many points a circle
 * of the grid has, the parameters they are placed at, the rotation angles of
 * the right-ascension circles and the polar angles of the declination
 * circles. Positions (sines and cosines) and the line renderers are not modelled.
 */
module EquatorialGrid {
  import opened Results
  import opened Arith

  /** The defaults of the public fields `raDivisions` and `decDivisions`. */
  const DefaultRaDivisions: int := 11
  const DefaultDecDivisions: int := 10

  /** `Mathf.RoundToInt(360 / angleResolution)`: the points of every circle. */
  function CircleSegments(resolution: real): (n: int)
    requires resolution != 0.0
    ensures -0.5 <= n as real - 360.0 / resolution <= 0.5
  {
    RoundHalfEven(360.0 / resolution)
  }

  /** At the five-degree default resolution a circle has 72 points. */
  lemma DefaultCircleSegments()
    ensures CircleSegments(5.0) == 72
  {
    RoundHalfEvenUnique(360.0 / 5.0, 72);
  }

  /** The parameter of point `i` of a circle of `n` points, `i * 2 * pi / n`. */
  function CircleParameter(i: int, n: int): real
    requires n > 0
  {
    (i * 2) as real * FloatPi / n as real
  }

  /** The parameters of a circle increase strictly and stay in [0, 2 pi), so no point repeats. */
  lemma CircleParametersOrdered(i: int, k: int, n: int)
    requires 0 <= i < k < n
    ensures 0.0 <= CircleParameter(i, n) < CircleParameter(k, n) < 2.0 * FloatPi
  {
    var step := 2.0 * FloatPi / n as real;
    assert CircleParameter(i, n) == i as real * step;
    assert CircleParameter(k, n) == k as real * step;
    assert 2.0 * FloatPi == n as real * step;
    assert step > 0.0;
    MulStrict(i as real, k as real, step);
    MulStrict(k as real, n as real, step);
  }

  lemma MulStrict(a: real, b: real, c: real)
    requires 0.0 <= a < b && c > 0.0
    ensures 0.0 <= a * c < b * c
  {
  }

  /**
   * The point loops of the base circle and of each declination circle
   * (equatorialGrid.cs:29-34, 52-57): one parameter per point, filled into a
   * fresh array.
   */
  method CircleParameters(n: int) returns (ts: seq<real>)
    requires n > 0
    ensures |ts| == n
    ensures forall i :: 0 <= i < n ==> ts[i] == CircleParameter(i, n)
    ensures forall i, k :: 0 <= i < k < n ==> 0.0 <= ts[i] < ts[k] < 2.0 * FloatPi
  {
    var points := new real[n];
    var i := 0;
    while i < n
      invariant 0 <= i <= n
      invariant forall k :: 0 <= k < i ==> points[k] == CircleParameter(k, n)
    {
      points[i] := (i * 2) as real * FloatPi / n as real;
      i := i + 1;
    }
    ts := points[..];
    forall i, k | 0 <= i < k < n
      ensures 0.0 <= ts[i] < ts[k] < 2.0 * FloatPi
    {
      CircleParametersOrdered(i, k, n);
    }
  }

  /** The rotation of right-ascension circle `i`, `i * 180 / raDivisions` in C#'s integer arithmetic. */
  function RaAngle(i: int, raDivisions: int): int
    requires raDivisions != 0
  {
    TruncDiv(i * 180, raDivisions)
  }

  /**
   * For `1 <= i < raDivisions` the angle is the exact `i * 180 / raDivisions`
   * rounded down, so it lies in [0, 180), and it does not decrease with `i`.
   */
  lemma RaAngleBounds(i: int, raDivisions: int)
    requires 1 <= i < raDivisions
    ensures RaAngle(i, raDivisions) * raDivisions <= i * 180 < (RaAngle(i, raDivisions) + 1) * raDivisions
    ensures 0 <= RaAngle(i, raDivisions) < 180
  {
    var q := RaAngle(i, raDivisions);
    assert 0 <= i * 180 - raDivisions * q < raDivisions;
    assert i * 180 < raDivisions * 180 by {
      MulLess(i, raDivisions, 180);
    }
    if q < 0 {
      MulNonPositive(q, raDivisions);
    }
    if q >= 180 {
      MulMonotone(180, q, raDivisions);
    }
  }

  lemma MulLess(a: int, b: int, c: int)
    requires a < b && c > 0
    ensures a * c < b * c
  {
  }

  lemma MulNonPositive(q: int, d: int)
    requires q < 0 && d > 0
    ensures q * d <= -d
  {
  }

  lemma MulMonotone(a: int, b: int, d: int)
    requires a <= b && d > 0
    ensures a * d <= b * d
  {
  }

  lemma RaAngleMonotone(i: int, k: int, raDivisions: int)
    requires 1 <= i <= k < raDivisions
    ensures RaAngle(i, raDivisions) <= RaAngle(k, raDivisions)
  {
    RaAngleBounds(i, raDivisions);
    RaAngleBounds(k, raDivisions);
    var qi, qk := RaAngle(i, raDivisions), RaAngle(k, raDivisions);
    MulMonotone(i * 180, k * 180, 1);
    if qk < qi {
      MulMonotone(qk + 1, qi, raDivisions);
    }
  }

  /**
   * With the default eleven divisions the rotations are 16, 32, 49, 65, 81,
   * 98, 114, 130, 147 and 163 degrees: none is an exact multiple of 180/11,
   * so the circles are not evenly spread.
   */
  lemma DefaultRaAngles()
    ensures forall i :: 1 <= i < DefaultRaDivisions ==>
      RaAngle(i, DefaultRaDivisions) == [16, 32, 49, 65, 81, 98, 114, 130, 147, 163][i - 1]
    ensures forall i :: 1 <= i < DefaultRaDivisions ==> RaAngle(i, DefaultRaDivisions) * DefaultRaDivisions < i * 180
  {
    forall i | 1 <= i < DefaultRaDivisions
      ensures RaAngle(i, DefaultRaDivisions) == [16, 32, 49, 65, 81, 98, 114, 130, 147, 163][i - 1]
    {
      var q := [16, 32, 49, 65, 81, 98, 114, 130, 147, 163][i - 1];
      assert 0 <= i * 180 - 11 * q < 11;
      TruncDivUnique(i * 180, 11, q);
    }
  }

  /** A non-negative quotient is pinned down by its remainder. */
  lemma TruncDivUnique(a: int, b: int, q: int)
    requires a >= 0 && b > 0 && 0 <= a - b * q < b
    ensures TruncDiv(a, b) == q
  {
    var t := TruncDiv(a, b);
    assert 0 <= a - b * t < b;
    if t < q {
      MulGap(b, t, q);
    } else if t > q {
      MulGap(b, q, t);
    }
  }

  lemma MulGap(b: int, t: int, q: int)
    requires b > 0 && t < q
    ensures b * q - b * t >= b
  {
    assert b * q - b * t == b * (q - t);
    MulMonotone(1, q - t, b);
    assert (q - t) * b == b * (q - t);
  }

  /**
   * The right-ascension loop (equatorialGrid.cs:38-44): one copy of the base
   * circle for each `i` from 1 to `raDivisions - 1`, rotated by `RaAngle(i)`.
   */
  method RaAngles(raDivisions: int) returns (angles: seq<int>)
    ensures |angles| == if raDivisions > 1 then raDivisions - 1 else 0
    ensures forall k :: 0 <= k < |angles| ==> angles[k] == RaAngle(k + 1, raDivisions)
    ensures forall k :: 0 <= k < |angles| ==> 0 <= angles[k] < 180
    ensures forall k, m :: 0 <= k <= m < |angles| ==> angles[k] <= angles[m]
  {
    angles := [];
    var i := 1;
    while i < raDivisions
      invariant 1 <= i && (raDivisions > 1 ==> i <= raDivisions) && (raDivisions <= 1 ==> i == 1)
      invariant |angles| == i - 1
      invariant forall k :: 0 <= k < |angles| ==> k + 1 < raDivisions && angles[k] == RaAngle(k + 1, raDivisions)
    {
      angles := angles + [i * 180 / raDivisions];
      assert i * 180 / raDivisions == RaAngle(i, raDivisions) by {
        EuclidRemainder(i * 180, raDivisions);
        TruncDivUnique(i * 180, raDivisions, i * 180 / raDivisions);
      }
      i := i + 1;
    }
    forall k | 0 <= k < |angles|
      ensures 0 <= angles[k] < 180
    {
      RaAngleBounds(k + 1, raDivisions);
    }
    forall k, m | 0 <= k <= m < |angles|
      ensures angles[k] <= angles[m]
    {
      RaAngleMonotone(k + 1, m + 1, raDivisions);
    }
  }

  /** The polar angle of declination circle `i`, `i * pi / decDivisions`. */
  function DecPolarAngle(i: int, decDivisions: int): real
    requires decDivisions != 0
  {
    i as real * FloatPi / decDivisions as real
  }

  /** Declination circles lie strictly between the poles and move south with `i`. */
  lemma DecPolarAnglesOrdered(i: int, k: int, decDivisions: int)
    requires 0 < i < k < decDivisions
    ensures 0.0 < DecPolarAngle(i, decDivisions) < DecPolarAngle(k, decDivisions) < FloatPi
  {
    var step := FloatPi / decDivisions as real;
    assert DecPolarAngle(i, decDivisions) == i as real * step;
    assert DecPolarAngle(k, decDivisions) == k as real * step;
    assert FloatPi == decDivisions as real * step;
    MulStrict(0.0, i as real, step);
    MulStrict(i as real, k as real, step);
    MulStrict(k as real, decDivisions as real, step);
  }

  lemma DecPolarAngleInside(i: int, decDivisions: int)
    requires 0 < i < decDivisions
    ensures 0.0 < DecPolarAngle(i, decDivisions) < FloatPi
  {
    var step := FloatPi / decDivisions as real;
    assert DecPolarAngle(i, decDivisions) == i as real * step;
    assert FloatPi == decDivisions as real * step;
    MulStrict(0.0, i as real, step);
    MulStrict(i as real, decDivisions as real, step);
  }

  /** One declination circle: its polar angle and the parameters of its points. */
  datatype DecCircle = DecCircle(polar: real, parameters: seq<real>)

  datatype Grid = Grid(segments: int, baseCircle: seq<real>, raAngles: seq<int>, decCircles: seq<DecCircle>)

  datatype GridError = NegativeSize  // `new Vector3[n]` with `n < 0` throws

  /**
   * The declination loop (equatorialGrid.cs:47-62): for each `i` from 1 to
   * `decDivisions - 1` a circle at polar angle `DecPolarAngle(i)`, with the
   * parameters of a circle of `segments` points.
   */
  method DecCircles(decDivisions: int, segments: nat) returns (circles: seq<DecCircle>)
    ensures |circles| == if decDivisions > 1 then decDivisions - 1 else 0
    ensures forall k :: 0 <= k < |circles| ==>
      && k + 1 < decDivisions
      && circles[k].polar == DecPolarAngle(k + 1, decDivisions)
      && 0.0 < circles[k].polar < FloatPi
      && |circles[k].parameters| == segments
      && forall m :: 0 <= m < segments ==> circles[k].parameters[m] == CircleParameter(m, segments)
  {
    circles := [];
    var i := 1;
    while i < decDivisions
      invariant 1 <= i && (decDivisions > 1 ==> i <= decDivisions) && (decDivisions <= 1 ==> i == 1)
      invariant |circles| == i - 1
      invariant forall k :: 0 <= k < |circles| ==>
        && k + 1 < decDivisions
        && circles[k].polar == DecPolarAngle(k + 1, decDivisions)
        && 0.0 < circles[k].polar < FloatPi
        && |circles[k].parameters| == segments
        && forall m :: 0 <= m < segments ==> circles[k].parameters[m] == CircleParameter(m, segments)
    {
      var d := i as real * FloatPi / decDivisions as real;
      DecPolarAngleInside(i, decDivisions);
      var p: seq<real> := [];
      if segments > 0 {
        p := CircleParameters(segments);
      }
      circles := circles + [DecCircle(d, p)];
      i := i + 1;
    }
  }

  /**
   * `equatorialGrid.Start` (equatorialGrid.cs:27-62) without the renderers:
   * the base circle, `raDivisions - 1` rotations and `decDivisions - 1`
   * declination circles strictly between the poles, every circle with
   * `CircleSegments` points. A resolution so coarse that the count rounds
   * to zero leaves the circles empty; a negative count throws.
   */
  method Layout(resolution: real, raDivisions: int, decDivisions: int) returns (r: Result<Grid, GridError>)
    requires resolution != 0.0
    ensures r.Failure? <==> CircleSegments(resolution) < 0
    ensures r.Success? ==> r.value.segments == CircleSegments(resolution)
    ensures r.Success? ==> |r.value.baseCircle| == r.value.segments
    ensures r.Success? ==> forall m :: 0 <= m < r.value.segments ==> r.value.baseCircle[m] == CircleParameter(m, r.value.segments)
    ensures r.Success? ==> forall m, n :: 0 <= m < n < r.value.segments ==>
      0.0 <= r.value.baseCircle[m] < r.value.baseCircle[n] < 2.0 * FloatPi
    ensures r.Success? ==> |r.value.raAngles| == if raDivisions > 1 then raDivisions - 1 else 0
    ensures r.Success? ==> |r.value.decCircles| == if decDivisions > 1 then decDivisions - 1 else 0
    ensures r.Success? ==> forall k :: 0 <= k < |r.value.raAngles| ==>
      r.value.raAngles[k] == RaAngle(k + 1, raDivisions) && 0 <= r.value.raAngles[k] < 180
    ensures r.Success? ==> forall k :: 0 <= k < |r.value.decCircles| ==>
      && r.value.decCircles[k].polar == DecPolarAngle(k + 1, decDivisions)
      && 0.0 < r.value.decCircles[k].polar < FloatPi
      && r.value.decCircles[k].parameters == r.value.baseCircle
  {
    var circleSegments := RoundHalfEven(360.0 / resolution);
    if circleSegments < 0 {
      return Failure(NegativeSize);
    }
    var points: seq<real> := [];
    if circleSegments > 0 {
      points := CircleParameters(circleSegments);
    }
    var raAngles := RaAngles(raDivisions);
    var decCircles := DecCircles(decDivisions, circleSegments);
    forall k | 0 <= k < |decCircles|
      ensures decCircles[k].parameters == points
    {
    }
    return Success(Grid(circleSegments, points, raAngles, decCircles));
  }
}
