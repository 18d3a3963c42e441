/**
 * The non-trigonometric skeleton of the ephemeris in celestialSphere.cs: the
 * day-linear orbital element tables, the `Sun` record and its value copy with
 * a zeroed offset used for the Moon, and the local sidereal time formula.
 * Angles are radians except in the sidereal time formula, which works in
 * degrees and hours as the source does. Single-precision floats are reals.
 */
module Ephemeris {

  /** An element that varies linearly with the day count since the epoch. */
  datatype Linear = Linear(atEpoch: real, perDay: real)
  {
    function At(day: real): real
    {
      atEpoch + perDay * day
    }
  }

  function Constant(x: real): Linear
  {
    Linear(x, 0.0)
  }

  /** Node longitude, inclination, perihelion argument, semi-major axis, eccentricity, mean anomaly. */
  datatype OrbitalElements = OrbitalElements(N: Linear, i: Linear, w: Linear, a: Linear, e: Linear, M: Linear)

  datatype Body = Moon | Mercury | Venus | Mars | Jupiter | Saturn | Uranus | Neptune

  /**
   * The element tables exactly as the constructors of `Moon` ... `Neptune`
   * write them (celestialSphere.cs:125-130, 185-190, 204-209, 223-228,
   * 242-247, 274-279, 307-312, 336-341), the Moon's `a` in Earth radii, the
   * others' in AU. Every orbit is a closed ellipse (positive axis,
   * eccentricity below 1) along which the body moves forward.
   */
  function ElementsAsWritten(body: Body): (els: OrbitalElements)
    ensures 0.0 < els.a.atEpoch
    ensures 0.0 <= els.e.atEpoch < 1.0
    ensures 0.0 < els.M.perDay
  {
    match body
    case Moon => OrbitalElements(
      Linear(2.18380483, -0.0009242183063049), Constant(0.08980417),
      Linear(5.55125356, 0.0028685764238965), Constant(60.2666),
      Constant(0.0549), Linear(2.013506073, 0.228027143743))
    case Mercury => OrbitalElements(
      Linear(0.843540317, 0.000000566511186), Linear(0.122255078, 0.000000000872664626),
      Linear(0.508311437, 0.000000177053181), Constant(0.387098),
      Linear(0.205635, 0.000000000559), Linear(2.94360599, 0.0714247100149))
    case Venus => OrbitalElements(
      Linear(1.33831673, 0.00000043038074), Linear(0.0592469468, 0.000000000479965544),
      Linear(0.95802868, 0.00000024150819), Constant(0.72333),
      Linear(0.006773, -0.000000001302), Linear(0.837848798, 0.0279624475))
    case Mars => OrbitalElements(
      Linear(0.864939799, 0.000000368405844), Linear(0.0322833552, -0.000000000310668607),
      Linear(5.00039623, 0.000000511313403), Constant(0.72333),
      Linear(0.006773, -0.000000001302), Linear(0.324667893, 0.0091458879))
    case Jupiter => OrbitalElements(
      Linear(1.75325654, 0.000000483201385), Linear(0.0227416402, -0.00000000271747765),
      Linear(4.78006761, 0.000000287115389), Constant(5.20256),
      Linear(0.048498, 0.000000004469), Linear(0.347233255, 0.001450112046752574))
    case Saturn => OrbitalElements(
      Linear(1.98380057, 0.000000417098785), Linear(0.0434342638, -0.00000000188670092),
      Linear(5.92354102, 0.00000051951645), Constant(5.20256),
      Linear(0.048498, 0.000000004469), Linear(5.53211777, 0.0005837118978783366))
    case Uranus => OrbitalElements(
      Linear(1.29155237, 0.000000243962123), Linear(0.0134966311, 0.000000000331612558),
      Linear(1.6870562, 0.000000533459886), Linear(19.18171, -0.0000000155),
      Linear(0.047318, 0.00000000745), Linear(2.48867371, 0.000204653922))
    case Neptune => OrbitalElements(
      Linear(2.30000536, 0.000000526618195), Linear(0.0308923278, -0.00000000445058959),
      Linear(4.7620628, -0.000000105190994), Linear(30.05826, 0.00000003313),
      Linear(0.008606, 0.00000000215), Linear(4.54216876, 0.000104635054))
  }

  /** Mars is given Venus's semi-major axis and eccentricity, Saturn Jupiter's. */
  lemma CopiedElementsAsWritten()
    ensures ElementsAsWritten(Mars).a == ElementsAsWritten(Venus).a
    ensures ElementsAsWritten(Mars).e == ElementsAsWritten(Venus).e
    ensures ElementsAsWritten(Saturn).a == ElementsAsWritten(Jupiter).a
    ensures ElementsAsWritten(Saturn).e == ElementsAsWritten(Jupiter).e
  {
  }

  /**
   * The tables with Mars's and Saturn's own semi-major axis and eccentricity
   * restored from the same published low-precision theory the other
   * coefficients come from; every other entry is the written one.
   */
  function Elements(body: Body): (els: OrbitalElements)
    ensures body != Mars && body != Saturn ==> els == ElementsAsWritten(body)
    ensures els.N == ElementsAsWritten(body).N && els.i == ElementsAsWritten(body).i
    ensures els.w == ElementsAsWritten(body).w && els.M == ElementsAsWritten(body).M
  {
    match body
    case Mars => ElementsAsWritten(Mars).(a := Constant(1.523688), e := Linear(0.093405, 0.000000002516))
    case Saturn => ElementsAsWritten(Saturn).(a := Constant(9.55475), e := Linear(0.055546, -0.000000009499))
    case _ => ElementsAsWritten(body)
  }

  /** The Sun's (Earth's) own semi-major axis, in AU (celestialSphere.cs:30). */
  const EarthSemiMajorAxis: real := 1.0

  /** Position of each planet counted outward from the Sun, Earth being 3. */
  function OrbitRank(body: Body): nat
  {
    match body
    case Moon => 0
    case Mercury => 1
    case Venus => 2
    case Mars => 4
    case Jupiter => 5
    case Saturn => 6
    case Uranus => 7
    case Neptune => 8
  }

  /**
   * In the corrected tables the semi-major axes at the epoch grow outward
   * from the Sun, with Earth's 1 AU between Venus and Mars.
   */
  lemma SemiMajorAxesGrowOutward(p: Body, q: Body)
    requires p != Moon && q != Moon && OrbitRank(p) < OrbitRank(q)
    ensures Elements(p).a.atEpoch < Elements(q).a.atEpoch
    ensures OrbitRank(p) < 3 ==> Elements(p).a.atEpoch < EarthSemiMajorAxis
    ensures OrbitRank(q) > 3 ==> EarthSemiMajorAxis < Elements(q).a.atEpoch
  {
  }

  /** The tables as written break that order twice: Venus and Mars, Jupiter and Saturn tie. */
  lemma AsWrittenAxesTie()
    ensures OrbitRank(Venus) < OrbitRank(Mars)
    ensures !(ElementsAsWritten(Venus).a.atEpoch < ElementsAsWritten(Mars).a.atEpoch)
    ensures !(ElementsAsWritten(Jupiter).a.atEpoch < ElementsAsWritten(Saturn).a.atEpoch)
    ensures ElementsAsWritten(Mars).a.atEpoch < EarthSemiMajorAxis
  {
  }

  /** Within about 2700 years of the epoch every orbit is an ellipse, 0 <= e < 1. */
  lemma EccentricityElliptical(body: Body, day: real)
    requires -1000000.0 <= day <= 1000000.0
    ensures 0.0 <= Elements(body).e.At(day) < 1.0
  {
  }

  /** The Sun's day-linear elements (celestialSphere.cs:29-33). */
  const SunW: Linear := Linear(4.93824157, 0.0000008219366)
  const SunE: Linear := Linear(0.016709, -0.000000001151)
  const SunM: Linear := Linear(6.214192441, 0.01720196962)
  const SunEcl: Linear := Linear(0.40909296, -0.000000006218608)

  /**
   * The `Sun` record (celestialSphere.cs:21-53). Its ecliptic offset `xs`,
   * `ys` and its `ra`, `dec` come from trigonometry that is not part of this
   * model, and are taken as given.
   */
  class Sun {
    var w: real
    var M: real
    var xs: real
    var ys: real
    var ra: real
    var dec: real
    var ecl: real

    constructor (day: real, xs: real, ys: real, ra: real, dec: real)
      ensures w == SunW.At(day) && M == SunM.At(day) && ecl == SunEcl.At(day)
      ensures this.xs == xs && this.ys == ys && this.ra == ra && this.dec == dec
    {
      w := SunW.At(day);
      M := SunM.At(day);
      ecl := SunEcl.At(day);
      this.xs, this.ys, this.ra, this.dec := xs, ys, ra, dec;
    }

    /** A sun with the given field values, as `MemberwiseClone` produces one. */
    constructor WithFields(w: real, M: real, xs: real, ys: real, ra: real, dec: real, ecl: real)
      ensures this.w == w && this.M == M && this.xs == xs && this.ys == ys
      ensures this.ra == ra && this.dec == dec && this.ecl == ecl
    {
      this.w, this.M, this.xs, this.ys := w, M, xs, ys;
      this.ra, this.dec, this.ecl := ra, dec, ecl;
    }

    /** Every field of `other` equals the corresponding field of this one. */
    predicate SameFieldsAs(other: Sun)
      reads this, other
    {
      w == other.w && M == other.M && xs == other.xs && ys == other.ys
      && ra == other.ra && dec == other.dec && ecl == other.ecl
    }

    /** `Copy`, a memberwise clone: a new object, not an alias (celestialSphere.cs:49-52). */
    method Copy() returns (c: Sun)
      ensures fresh(c) && c != this
      ensures c.SameFieldsAs(this)
    {
      c := new Sun.WithFields(w, M, xs, ys, ra, dec, ecl);
    }

    /**
     * The Earth-centred view the Moon is computed in (celestialSphere.cs:162-164):
     * a copy whose offset is zeroed, while this sun keeps its own offset and
     * the copy keeps its `w`, `M` and `ecl`.
     */
    method AsEarth() returns (earth: Sun)
      ensures fresh(earth)
      ensures earth.xs == 0.0 && earth.ys == 0.0
      ensures earth.w == w && earth.M == M && earth.ecl == ecl
      ensures earth.ra == ra && earth.dec == dec
      ensures xs == old(xs) && ys == old(ys)
    {
      earth := Copy();
      earth.xs := 0.0;
      earth.ys := 0.0;
    }
  }

  /** The UTC clock time as a fractional hour (celestialSphere.cs:389). */
  function HourOfDay(hour: int, minute: int, second: int): (h: real)
    requires 0 <= hour < 24 && 0 <= minute < 60 && 0 <= second < 60
    ensures 0.0 <= h < 24.0
    ensures hour as real <= h < hour as real + 1.0
  {
    hour as real + minute as real / 60.0 + second as real / 3600.0
  }

  /** The Sun's mean longitude in degrees used by the sidereal time (celestialSphere.cs:386-388). */
  function SunMeanLongitudeDegrees(day: real): real
  {
    (282.9404 + 0.0000470935 * day) + (356.0470 + 0.9856002585 * day)
  }

  /**
   * `localSideralTime` in hours (celestialSphere.cs:381-391), longitude in
   * degrees, NOT reduced modulo 24.
   */
  function LocalSiderealTime(day: real, hour: int, minute: int, second: int, longitude: real): (t: real)
    requires 0 <= hour < 24 && 0 <= minute < 60 && 0 <= second < 60
    ensures t == 54.59916 + 0.985647352 / 15.0 * day + HourOfDay(hour, minute, second) + longitude / 15.0
    ensures 54.59916 <= t - 0.985647352 / 15.0 * day - longitude / 15.0 < 54.59916 + 24.0
  {
    SunMeanLongitudeDegrees(day) / 15.0 + 12.0 + HourOfDay(hour, minute, second) + longitude / 15.0
  }

  /** At the epoch, midnight UTC, on the Greenwich meridian the value is 54.59916 hours: never wrapped into [0, 24). */
  lemma SiderealTimeAtEpoch()
    ensures LocalSiderealTime(0.0, 0, 0, 0, 0.0) == 54.59916
    ensures LocalSiderealTime(0.0, 0, 0, 0, 0.0) >= 24.0
  {
  }

  /** Each day at the same clock time the value grows by the Sun's daily mean motion over 15. */
  lemma SiderealTimeDailyGain(day: real, hour: int, minute: int, second: int, longitude: real)
    requires 0 <= hour < 24 && 0 <= minute < 60 && 0 <= second < 60
    ensures LocalSiderealTime(day + 1.0, hour, minute, second, longitude)
      == LocalSiderealTime(day, hour, minute, second, longitude) + 0.985647352 / 15.0
  {
  }

  /** Fifteen degrees of longitude east is one hour of sidereal time. */
  lemma SiderealTimeLongitude(day: real, hour: int, minute: int, second: int, longitude: real)
    requires 0 <= hour < 24 && 0 <= minute < 60 && 0 <= second < 60
    ensures LocalSiderealTime(day, hour, minute, second, longitude + 15.0)
      == LocalSiderealTime(day, hour, minute, second, longitude) + 1.0
  {
  }
}
