/**
 * The Yale Bright Star catalog reader of starField.cs: the fixed-width
 * fields of a `StarBSC5` line, the sexagesimal-to-radian conversions
 * `raToRad` and `decToRad`, the filter-and-compact loop of
 * `loadBSC5Catalog`, and the brightness keys of `starField.Update`.
 * `float.Parse` is the parameter `parse`, which yields `None` where the
 * runtime would throw.
 */
module StarField {
  import opened Results
  import opened Arith
  import opened Arrays

  /** A star as `StarBSC5` holds it: three text fields and three numbers. */
  datatype Star = Star(name: string, hd: string, sao: string, ra: real, dec: real, mag: real)

  datatype StarError =
    | LineTooShort  // a `Substring` beyond the end of a line
    | BadNumber     // `float.Parse` of a field that is not a number

  /** The shortest line `StarBSC5` can read: the magnitude ends at column 105. */
  const StarLineLength: nat := 106

  /** Columns 60-62, which are blank for the catalog's entries without a position. */
  function PositionMark(line: string): string
    requires |line| >= 63
  {
    line[60..63]
  }

  predicate IsListed(line: string)
    requires |line| >= 63
  {
    PositionMark(line) != "   "
  }

  /** Right ascension from hours, minutes and seconds: 15 degrees per hour, in radians. */
  function RaRadians(hour: real, min: real, sec: real): real
  {
    (hour + min / 60.0 + sec / 3600.0) * ToRad * 360.0 / 24.0
  }

  /**
   * A catalog right ascension, whole hours below 24, whole minutes below
   * 60 and seconds below 60, lies in [0, 2 pi): the circle is never closed.
   */
  lemma RaInRange(hour: nat, min: nat, sec: real)
    requires hour < 24 && min < 60 && 0.0 <= sec < 60.0
    ensures 0.0 <= RaRadians(hour as real, min as real, sec) < 2.0 * FloatPi
  {
    var h := hour as real + min as real / 60.0 + sec / 3600.0;
    assert h < 24.0 by {
      assert hour as real <= 23.0 && min as real <= 59.0;
    }
    assert RaRadians(hour as real, min as real, sec) == h * FloatPi / 12.0;
  }

  /** An hour of right ascension is a twenty-fourth of the circle. */
  lemma RaHourIsFifteenDegrees(hour: real, min: real, sec: real)
    ensures RaRadians(hour + 1.0, min, sec) - RaRadians(hour, min, sec) == 15.0 * ToRad
  {
  }

  /**
   * `raToRad` (starField.cs:33-40): hours in columns 0-1, minutes in 2-3 and
   * seconds in 4-7 of the eight-character field.
   */
  function RaToRad(raS: string, parse: string -> Option<real>): (r: Option<real>)
    requires |raS| == 8
    ensures r.Some? <==> parse(raS[0..2]).Some? && parse(raS[2..4]).Some? && parse(raS[4..8]).Some?
    ensures r.Some? ==> r.value == RaRadians(parse(raS[0..2]).value, parse(raS[2..4]).value, parse(raS[4..8]).value)
  {
    match (parse(raS[0..2]), parse(raS[2..4]), parse(raS[4..8]))
    case (Some(hour), Some(min), Some(sec)) => Some(RaRadians(hour, min, sec))
    case _ => None
  }

  /** Polar distance from the north pole, in radians, of a declination with sign `sig`. */
  function DecRadians(sig: real, deg: real, min: real, sec: real): real
  {
    (90.0 - sig * (deg + min / 60.0 + sec / 3600.0)) * ToRad
  }

  /**
   * A `+` declination gives 90 - dec degrees and a `-` one 90 + dec; for a
   * declination of at most 90 degrees either lies in [0, pi].
   */
  lemma DecInRange(deg: real, min: real, sec: real)
    requires 0.0 <= deg && 0.0 <= min && 0.0 <= sec
    requires deg + min / 60.0 + sec / 3600.0 <= 90.0
    ensures DecRadians(1.0, deg, min, sec) == (90.0 - (deg + min / 60.0 + sec / 3600.0)) * ToRad
    ensures DecRadians(-1.0, deg, min, sec) == (90.0 + (deg + min / 60.0 + sec / 3600.0)) * ToRad
    ensures 0.0 <= DecRadians(1.0, deg, min, sec) <= FloatPi
    ensures 0.0 <= DecRadians(-1.0, deg, min, sec) <= FloatPi
  {
    var d := deg + min / 60.0 + sec / 3600.0;
    assert DecRadians(1.0, deg, min, sec) == (90.0 - d) * FloatPi / 180.0;
    assert DecRadians(-1.0, deg, min, sec) == (90.0 + d) * FloatPi / 180.0;
  }

  /** The two hemispheres mirror each other about the equator, at polar distance pi/2. */
  lemma DecHemispheresMirror(deg: real, min: real, sec: real)
    ensures DecRadians(1.0, deg, min, sec) + DecRadians(-1.0, deg, min, sec) == FloatPi
  {
  }

  /**
   * `decToRad` (starField.cs:41-49): the sign is column 0 followed by "1",
   * degrees 1-2, minutes 3-4 and seconds 5-6 of the seven-character field.
   */
  function DecToRad(decS: string, parse: string -> Option<real>): (r: Option<real>)
    requires |decS| == 7
    ensures r.Some? <==>
      parse([decS[0]] + "1").Some? && parse(decS[1..3]).Some? &&
      parse(decS[3..5]).Some? && parse(decS[5..7]).Some?
    ensures r.Some? ==> r.value == DecRadians(parse([decS[0]] + "1").value, parse(decS[1..3]).value,
                                             parse(decS[3..5]).value, parse(decS[5..7]).value)
  {
    match (parse([decS[0]] + "1"), parse(decS[1..3]), parse(decS[3..5]), parse(decS[5..7]))
    case (Some(sig), Some(deg), Some(min), Some(sec)) => Some(DecRadians(sig, deg, min, sec))
    case _ => None
  }

  /**
   * The `StarBSC5` constructor (starField.cs:24-32): name in columns 5-13,
   * HD number 25-30, SAO number 31-36, right ascension 75-82, declination
   * 83-89 and magnitude 103-105. A line too short for the magnitude is a
   * `Substring` failure; otherwise the star is read exactly when its three
   * numbers parse.
   */
  function ParseStar(line: string, parse: string -> Option<real>): (r: Result<Star, StarError>)
    ensures |line| < StarLineLength ==> r == Failure(LineTooShort)
    ensures r.Success? <==>
      |line| >= StarLineLength && RaToRad(line[75..83], parse).Some? &&
      DecToRad(line[83..90], parse).Some? && parse(line[103..106]).Some?
    ensures r.Failure? && |line| >= StarLineLength ==> r.error == BadNumber
    ensures r.Success? ==> r.value == Star(line[5..14], line[25..31], line[31..37],
                                           RaToRad(line[75..83], parse).value,
                                           DecToRad(line[83..90], parse).value,
                                           parse(line[103..106]).value)
  {
    if |line| < StarLineLength then Failure(LineTooShort)
    else
      match (RaToRad(line[75..83], parse), DecToRad(line[83..90], parse), parse(line[103..106]))
      case (Some(ra), Some(dec), Some(mag)) =>
        Success(Star(line[5..14], line[25..31], line[31..37], ra, dec, mag))
      case _ => Failure(BadNumber)
  }

  /** The listed lines, in file order: those with a position. */
  function Listed(lines: seq<string>): seq<string>
    requires forall i :: 0 <= i < |lines| ==> |lines[i]| >= 63
    decreases |lines|
  {
    if lines == [] then []
    else
      var last := lines[|lines| - 1];
      Listed(lines[..|lines| - 1]) + (if IsListed(last) then [last] else [])
  }

  /** How many lines are listed. */
  function CountListed(lines: seq<string>): nat
    requires forall i :: 0 <= i < |lines| ==> |lines[i]| >= 63
    decreases |lines|
  {
    if lines == [] then 0
    else CountListed(lines[..|lines| - 1]) + (if IsListed(lines[|lines| - 1]) then 1 else 0)
  }

  /** The listed lines are exactly the lines with a position, and there are `CountListed` of them. */
  lemma {:induction false} ListedExactly(lines: seq<string>)
    requires forall i :: 0 <= i < |lines| ==> |lines[i]| >= 63
    ensures |Listed(lines)| == CountListed(lines) <= |lines|
    ensures forall x :: x in Listed(lines) <==> x in lines && IsListed(x)
    decreases |lines|
  {
    if lines != [] {
      var front := lines[..|lines| - 1];
      ListedExactly(front);
      assert lines == front + [lines[|lines| - 1]];
    }
  }

  /** Parsing the listed lines in order; the first failure is the result. */
  function ParseStars(lines: seq<string>, parse: string -> Option<real>): (r: Result<seq<Star>, StarError>)
    ensures r.Success? ==> |r.value| == |lines|
    decreases |lines|
  {
    if lines == [] then Success([])
    else
      match ParseStars(lines[..|lines| - 1], parse)
      case Failure(e) => Failure(e)
      case Success(stars) =>
        match ParseStar(lines[|lines| - 1], parse)
        case Failure(e) => Failure(e)
        case Success(star) => Success(stars + [star])
  }

  /** The lines parse together exactly when each parses, into one star per line in order. */
  lemma {:induction false} ParseStarsEach(lines: seq<string>, parse: string -> Option<real>)
    ensures ParseStars(lines, parse).Success? <==> forall k :: 0 <= k < |lines| ==> ParseStar(lines[k], parse).Success?
    ensures ParseStars(lines, parse).Success? ==>
      forall k :: 0 <= k < |lines| ==> ParseStars(lines, parse).value[k] == ParseStar(lines[k], parse).value
    decreases |lines|
  {
    if ParseStars(lines, parse).Success? {
      forall k | 0 <= k < |lines|
        ensures ParseStar(lines[k], parse).Success?
        ensures ParseStars(lines, parse).value[k] == ParseStar(lines[k], parse).value
      {
        ParseStarsAt(lines, parse, k);
      }
    } else {
      var k := ParseStarsFailsAt(lines, parse);
    }
  }

  /** Star `k` of a successful parse is line `k` parsed. */
  lemma {:induction false} ParseStarsAt(lines: seq<string>, parse: string -> Option<real>, k: nat)
    requires k < |lines| && ParseStars(lines, parse).Success?
    ensures ParseStar(lines[k], parse).Success?
    ensures ParseStars(lines, parse).value[k] == ParseStar(lines[k], parse).value
    decreases |lines|
  {
    var front := lines[..|lines| - 1];
    if k < |front| {
      ParseStarsAt(front, parse, k);
      assert lines[k] == front[k];
    }
  }

  /** A failed parse has a line that does not parse. */
  lemma {:induction false} ParseStarsFailsAt(lines: seq<string>, parse: string -> Option<real>) returns (k: nat)
    requires !ParseStars(lines, parse).Success?
    ensures k < |lines| && !ParseStar(lines[k], parse).Success?
    decreases |lines|
  {
    var front := lines[..|lines| - 1];
    if ParseStars(front, parse).Success? {
      k := |lines| - 1;
    } else {
      k := ParseStarsFailsAt(front, parse);
      assert lines[k] == front[k];
    }
  }

  /** Every line can be read by `loadBSC5Catalog`: it reaches column 62, and a listed line parses. */
  predicate Loadable(lines: seq<string>, parse: string -> Option<real>)
  {
    forall i :: 0 <= i < |lines| ==>
      |lines[i]| >= 63 && (IsListed(lines[i]) ==> ParseStar(lines[i], parse).Success?)
  }

  lemma ListedSnoc(lines: seq<string>, line: string)
    requires forall i :: 0 <= i < |lines| ==> |lines[i]| >= 63
    requires |line| >= 63
    ensures forall i :: 0 <= i < |lines + [line]| ==> |(lines + [line])[i]| >= 63
    ensures Listed(lines + [line]) == Listed(lines) + (if IsListed(line) then [line] else [])
  {
    assert (lines + [line])[..|lines|] == lines;
  }

  /** The first `i` lines are loadable and their listed lines parse to `stars`. */
  ghost predicate Loaded(lines: seq<string>, i: nat, parse: string -> Option<real>, stars: seq<Star>)
    requires i <= |lines|
  {
    Loadable(lines[..i], parse) && ParseStars(Listed(lines[..i]), parse) == Success(stars)
  }

  /** A listed line that parses adds its star after those read so far. */
  lemma LoadListed(lines: seq<string>, i: nat, parse: string -> Option<real>, stars: seq<Star>)
    requires i < |lines| && Loaded(lines, i, parse, stars)
    requires |lines[i]| >= 63 && IsListed(lines[i]) && ParseStar(lines[i], parse).Success?
    ensures Loaded(lines, i + 1, parse, stars + [ParseStar(lines[i], parse).value])
  {
    assert lines[..i + 1] == lines[..i] + [lines[i]];
    ListedSnoc(lines[..i], lines[i]);
    var listed := Listed(lines[..i]);
    assert (listed + [lines[i]])[..|listed|] == listed;
  }

  /** A line without a position adds nothing. */
  lemma LoadSkipped(lines: seq<string>, i: nat, parse: string -> Option<real>, stars: seq<Star>)
    requires i < |lines| && Loaded(lines, i, parse, stars)
    requires |lines[i]| >= 63 && !IsListed(lines[i])
    ensures Loaded(lines, i + 1, parse, stars)
  {
    assert lines[..i + 1] == lines[..i] + [lines[i]];
    ListedSnoc(lines[..i], lines[i]);
    assert Listed(lines[..i]) + [] == Listed(lines[..i]);
  }

  /** Once every line is read, the stars are those of all the listed lines. */
  lemma LoadedAll(lines: seq<string>, parse: string -> Option<real>, stars: seq<Star>)
    requires Loaded(lines, |lines|, parse, stars)
    ensures Loadable(lines, parse) && ParseStars(Listed(lines), parse) == Success(stars)
    ensures |stars| == CountListed(lines)
  {
    assert lines[..|lines|] == lines;
    ListedExactly(lines);
    ParseStarsEach(Listed(lines), parse);
  }

  /**
   * `loadBSC5Catalog` (starField.cs:61-76): the listed lines are parsed into
   * an array of one slot per line through the write index `j`, which never
   * passes the read index `i`, and the array is cut to `j` slots. The stars
   * are those of the listed lines, in file order, one per listed line.
   */
  method LoadCatalog(lines: seq<string>, parse: string -> Option<real>) returns (r: Result<seq<Star>, StarError>)
    ensures r.Success? <==> Loadable(lines, parse)
    ensures r.Success? ==> ParseStars(Listed(lines), parse) == Success(r.value)
    ensures r.Success? ==> |r.value| == CountListed(lines)
  {
    var starsObjArray := new Star[|lines|];
    var j := 0;
    var i := 0;
    while i < |lines|
      invariant 0 <= j <= i <= |lines|
      invariant Loaded(lines, i, parse, starsObjArray[..j])
    {
      var starLine := lines[i];
      if |starLine| < 63 {
        return Failure(LineTooShort);
      }
      if starLine[60..63] != "   " {
        var star := ParseStar(starLine, parse);
        if star.Failure? {
          return Failure(star.error);
        }
        LoadListed(lines, i, parse, starsObjArray[..j]);
        Place(starsObjArray, j, star.value);
        j := j + 1;
      } else {
        LoadSkipped(lines, i, parse, starsObjArray[..j]);
      }
      i := i + 1;
    }
    LoadedAll(lines, parse, starsObjArray[..j]);
    return Success(starsObjArray[..j]);
  }

  /** One press of M: brighter by `db`, but not beyond the maximum. */
  function Brighten(brilho: real, db: real, maxBrilho: real): (r: real)
    ensures r <= maxBrilho
    ensures brilho + db <= maxBrilho ==> r == brilho + db
    ensures brilho + db > maxBrilho ==> r == maxBrilho
  {
    MinReal(maxBrilho, brilho + db)
  }

  /** One press of N: dimmer by `db`, but not below zero. */
  function Dim(brilho: real, db: real): (r: real)
    ensures r >= 0.0
    ensures brilho - db >= 0.0 ==> r == brilho - db
    ensures brilho - db < 0.0 ==> r == 0.0
  {
    MaxReal(0.0, brilho - db)
  }

  /**
   * With a non-negative step and a level in [0, max], both keys keep the
   * level in [0, max]; M never dims and N never brightens.
   */
  lemma BrightnessStaysInRange(brilho: real, db: real, maxBrilho: real)
    requires 0.0 <= brilho <= maxBrilho && db >= 0.0
    ensures brilho <= Brighten(brilho, db, maxBrilho) <= maxBrilho
    ensures 0.0 <= Dim(brilho, db) <= brilho
  {
  }

  /** Below the maximum, N undoes M; above zero, M undoes N. */
  lemma BrightenDimInverse(brilho: real, db: real, maxBrilho: real)
    requires 0.0 <= brilho && db >= 0.0
    ensures brilho + db <= maxBrilho ==> Dim(Brighten(brilho, db, maxBrilho), db) == brilho
    ensures brilho - db >= 0.0 && brilho <= maxBrilho ==> Brighten(Dim(brilho, db), db, maxBrilho) == brilho
  {
  }

  /** The level after a sequence of key presses, `true` for M and `false` for N. */
  function Presses(brilho: real, db: real, maxBrilho: real, keys: seq<bool>): real
    decreases |keys|
  {
    if keys == [] then brilho
    else
      var b := Presses(brilho, db, maxBrilho, keys[..|keys| - 1]);
      if keys[|keys| - 1] then Brighten(b, db, maxBrilho) else Dim(b, db)
  }

  /** However the keys are pressed, the level stays in [0, max]. */
  lemma {:induction false} PressesStayInRange(brilho: real, db: real, maxBrilho: real, keys: seq<bool>)
    requires 0.0 <= brilho <= maxBrilho && db >= 0.0
    ensures 0.0 <= Presses(brilho, db, maxBrilho, keys) <= maxBrilho
    decreases |keys|
  {
    if keys != [] {
      PressesStayInRange(brilho, db, maxBrilho, keys[..|keys| - 1]);
      BrightnessStaysInRange(Presses(brilho, db, maxBrilho, keys[..|keys| - 1]), db, maxBrilho);
    }
  }

  /** The brightness state of `starField`: `brilho` changes in place, `db` is a setting. */
  class StarBrightness {
    var brilho: real
    var db: real
    const maxBrilho: real

    ghost predicate Valid()
      reads this
    {
      0.0 <= brilho <= maxBrilho && db >= 0.0
    }

    /** The initial values of the fields (starField.cs:57-59). */
    constructor ()
      ensures brilho == 100.0 && db == 2.0 && maxBrilho == 200.0
      ensures Valid()
    {
      brilho := 100.0;
      db := 2.0;
      maxBrilho := 200.0;
    }

    /** The M branch of `Update` (starField.cs:108-116). */
    method PressM()
      modifies this`brilho
      ensures brilho == Brighten(old(brilho), db, maxBrilho)
      ensures old(Valid()) ==> Valid() && brilho >= old(brilho)
    {
      brilho := MinReal(maxBrilho, brilho + db);
    }

    /** The N branch of `Update` (starField.cs:117-125). */
    method PressN()
      modifies this`brilho
      ensures brilho == Dim(old(brilho), db)
      ensures old(Valid()) ==> Valid() && brilho <= old(brilho)
    {
      brilho := MaxReal(0.0, brilho - db);
    }

    /** One frame of `Update`: M is handled before N when both keys go down together. */
    method Update(keyM: bool, keyN: bool)
      modifies this`brilho
      ensures brilho == Presses(old(brilho), db, maxBrilho, (if keyM then [true] else []) + (if keyN then [false] else []))
      ensures old(Valid()) ==> Valid()
    {
      ghost var keys: seq<bool> := [];
      if keyM {
        PressM();
        keys := [true];
      }
      if keyN {
        PressN();
        assert (keys + [false])[..|keys|] == keys;
        keys := keys + [false];
      }
      assert keys == (if keyM then [true] else []) + (if keyN then [false] else []);
    }
  }
}
