/**
 * The Sky & Telescope constellation-line catalog (constellationLines.cs): the
 * `ArcSnT` style lookup, the `ConstellationsSnT` grouping of fixed-width lines
 * into maximal runs of one constellation, keyed `name + j`, and the sampling
 * of each arc between consecutive points in `constellationLines.Start`.
 * Lines are given as a sequence of strings instead of a file.
 */
module Constellations {
  import opened Results
  import opened Strings
  import opened Arith
  import opened Arrays
  import opened Seqs

  datatype Color = Blue | Red | Yellow

  datatype Style = Style(color: Color, width: real)

  /** The exceptions the catalog code can raise, one constructor each. */
  datatype CatalogError =
    | EmptyLine            // `Substring(0, 1)` of an empty line
    | LineTooShort         // a `Substring` beyond the end of a line
    | BadNumber            // `float.Parse` of a coordinate field that is not a number
    | NotADigit            // `Int32.Parse` of a non-digit style column
    | UnknownStyle(code: int)  // `widthDict[w]` with a key not in the table

  /**
   * `colorDict` and `widthDict` (constellationLines.cs:22-35): codes 1 to 4
   * have a style, 3 and 4 the same one; any other code is a missing key.
   */
  function StyleOf(code: int): (r: Result<Style, CatalogError>)
    ensures r.Success? <==> 1 <= code <= 4
    ensures r.Failure? ==> r.error == UnknownStyle(code)
    ensures code == 1 ==> r == Success(Style(Blue, 0.006))
    ensures code == 2 ==> r == Success(Style(Red, 0.004))
    ensures code == 3 || code == 4 ==> r == Success(Style(Yellow, 0.002))
  {
    if code == 1 then Success(Style(Blue, 0.006))
    else if code == 2 then Success(Style(Red, 0.004))
    else if code == 3 || code == 4 then Success(Style(Yellow, 0.002))
    else Failure(UnknownStyle(code))
  }

  /** The thicker the line, the lower the code; the three widths have three colours. */
  lemma StylesDistinct(c1: int, c2: int)
    requires 1 <= c1 < c2 <= 4
    ensures StyleOf(c1).value.width >= StyleOf(c2).value.width
    ensures c2 <= 3 ==> StyleOf(c1).value.width > StyleOf(c2).value.width
    ensures c2 <= 3 ==> StyleOf(c1).value.color != StyleOf(c2).value.color
  {
  }

  /** One endpoint of a constellation segment: its right ascension and declination in radians, and its style. */
  datatype ArcPoint = ArcPoint(ra: real, dec: real, style: Style)

  /** The column holding the style code, which is also the first column of the name. */
  const StyleColumn: nat := 28

  /**
   * The `ArcSnT` constructor (constellationLines.cs:38-49): RA in hours in
   * columns 6-13 and Dec in degrees in columns 15-22, each read by
   * `float.Parse` (the parameter `parse`) and turned into radians, then the
   * style code, parsed as a decimal digit, in column 28.
   */
  function ParseArc(line: string, parse: string -> Option<real>): (r: Result<ArcPoint, CatalogError>)
    ensures r.Success? <==>
      && |line| > StyleColumn
      && parse(line[6..14]).Some? && parse(line[15..23]).Some?
      && line[StyleColumn] in "1234"
    ensures r.Success? ==> r.value.ra == parse(line[6..14]).value * ToRad * 360.0 / 24.0
    ensures r.Success? ==> r.value.dec == parse(line[15..23]).value * ToRad
    ensures r.Success? ==> r.value.style == StyleOf(line[StyleColumn] as int - '0' as int).value
  {
    if |line| < 14 then Failure(LineTooShort)
    else if parse(line[6..14]).None? then Failure(BadNumber)
    else if |line| < 23 then Failure(LineTooShort)
    else if parse(line[15..23]).None? then Failure(BadNumber)
    else if |line| <= StyleColumn then Failure(LineTooShort)
    else if !('0' <= line[StyleColumn] <= '9') then Failure(NotADigit)
    else
      match StyleOf(line[StyleColumn] as int - '0' as int)
      case Failure(e) => Failure(e)
      case Success(style) =>
        Success(ArcPoint(parse(line[6..14]).value * ToRad * 360.0 / 24.0, parse(line[15..23]).value * ToRad, style))
  }

  /** Parsing a sequence of lines in order; the first failure is the result. */
  function ParseAll(items: seq<string>, parse: string -> Option<real>): (r: Result<seq<ArcPoint>, CatalogError>)
    ensures r.Success? <==> forall k :: 0 <= k < |items| ==> ParseArc(items[k], parse).Success?
    ensures r.Success? ==> |r.value| == |items|
    ensures r.Success? ==> forall k :: 0 <= k < |items| ==> r.value[k] == ParseArc(items[k], parse).value
    decreases |items|
  {
    if items == [] then Success([])
    else
      var front := items[..|items| - 1];
      match ParseAll(front, parse)
      case Failure(e) => Failure(e)
      case Success(arcs) =>
        match ParseArc(items[|items| - 1], parse)
        case Failure(e) => Failure(e)
        case Success(p) => Success(arcs + [p])
  }

  /** A data line is long enough for its four-character name in columns 28-31. */
  type DataLine = s: string | |s| >= 32 witness "                                "

  function NameOf(line: DataLine): string
  {
    line[28..32]
  }

  /** Every line can be read: it is not empty, and unless it is a `#` comment it holds a name. */
  predicate Readable(lines: seq<string>)
  {
    forall i :: 0 <= i < |lines| ==> ReadableLine(lines[i])
  }

  predicate ReadableLine(line: string)
  {
    |line| > 0 && (line[0] != '#' ==> |line| >= 32)
  }

  /** The non-comment lines, in file order. */
  function DataLines(lines: seq<string>): seq<DataLine>
    requires Readable(lines)
    decreases |lines|
  {
    if lines == [] then []
    else
      var last := lines[|lines| - 1];
      DataLines(lines[..|lines| - 1]) + (if last[0] == '#' then [] else [last])
  }

  /** The name of a run, that of its first line. */
  function RunName(run: seq<DataLine>): string
  {
    if run == [] then "" else NameOf(run[0])
  }

  function Flatten(runs: seq<seq<DataLine>>): seq<DataLine>
    decreases |runs|
  {
    if runs == [] then [] else Flatten(runs[..|runs| - 1]) + runs[|runs| - 1]
  }

  lemma FlattenSnoc(runs: seq<seq<DataLine>>, run: seq<DataLine>)
    ensures Flatten(runs + [run]) == Flatten(runs) + run
  {
    assert (runs + [run])[..|runs|] == runs;
  }

  /** Runs are well formed: none is empty, each has one name, and neighbours differ in name. */
  predicate MaximalRuns(runs: seq<seq<DataLine>>)
  {
    && (forall k :: 0 <= k < |runs| ==> runs[k] != [])
    && (forall k, m :: 0 <= k < |runs| && 0 <= m < |runs[k]| ==> NameOf(runs[k][m]) == RunName(runs[k]))
    && (forall k :: 0 < k < |runs| ==> RunName(runs[k - 1]) != RunName(runs[k]))
  }

  /** The name of the last line so far, `earlierName` in the loop; "" before any. */
  function LastName(runs: seq<seq<DataLine>>): string
  {
    if runs == [] then "" else RunName(runs[|runs| - 1])
  }

  /** One more line: it extends the last run when it has the same name, otherwise opens a run. */
  function Push(runs: seq<seq<DataLine>>, x: DataLine): seq<seq<DataLine>>
  {
    if runs != [] && LastName(runs) == NameOf(x) then runs[..|runs| - 1] + [runs[|runs| - 1] + [x]]
    else runs + [[x]]
  }

  /** The runs of a sequence of data lines, line by line in file order. */
  function Runs(xs: seq<DataLine>): seq<seq<DataLine>>
    decreases |xs|
  {
    if xs == [] then [] else Push(Runs(xs[..|xs| - 1]), xs[|xs| - 1])
  }

  lemma ExtendKeepsRuns(runs: seq<seq<DataLine>>, x: DataLine)
    requires MaximalRuns(runs) && runs != [] && LastName(runs) == NameOf(x)
    ensures MaximalRuns(Push(runs, x))
  {
    var n := |runs|;
    var r := Push(runs, x);
    var last := runs[n - 1];
    assert r == runs[..n - 1] + [last + [x]];
    assert |r| == n;
    assert RunName(r[n - 1]) == RunName(last);
    forall k, m | 0 <= k < n && 0 <= m < |r[k]|
      ensures NameOf(r[k][m]) == RunName(r[k])
    {
      if k < n - 1 {
        assert r[k] == runs[k];
      } else if m < |last| {
        assert r[k][m] == last[m];
      }
    }
    forall k | 0 < k < n
      ensures RunName(r[k - 1]) != RunName(r[k])
    {
      assert r[k - 1] == runs[k - 1];
      assert RunName(r[k]) == RunName(runs[k]);
    }
  }

  lemma OpenKeepsRuns(runs: seq<seq<DataLine>>, x: DataLine)
    requires MaximalRuns(runs) && !(runs != [] && LastName(runs) == NameOf(x))
    ensures MaximalRuns(Push(runs, x))
  {
    var r := Push(runs, x);
    assert r == runs + [[x]];
    forall k, m | 0 <= k < |r| && 0 <= m < |r[k]|
      ensures NameOf(r[k][m]) == RunName(r[k])
    {
      if k < |runs| {
        assert r[k] == runs[k];
      }
    }
    forall k | 0 < k < |r|
      ensures RunName(r[k - 1]) != RunName(r[k])
    {
      assert r[k - 1] == runs[k - 1];
    }
  }

  lemma PushKeepsRuns(runs: seq<seq<DataLine>>, x: DataLine)
    requires MaximalRuns(runs)
    ensures MaximalRuns(Push(runs, x))
    ensures Flatten(Push(runs, x)) == Flatten(runs) + [x]
    ensures LastName(Push(runs, x)) == NameOf(x)
  {
    if runs != [] && LastName(runs) == NameOf(x) {
      var front, last := runs[..|runs| - 1], runs[|runs| - 1];
      assert runs == front + [last];
      FlattenSnoc(front, last);
      FlattenSnoc(front, last + [x]);
      ExtendKeepsRuns(runs, x);
    } else {
      FlattenSnoc(runs, [x]);
      OpenKeepsRuns(runs, x);
    }
  }

  /**
   * The runs are the maximal runs of the lines: together they are the lines,
   * none is empty, each has one name, and neighbours differ in name.
   */
  lemma {:induction false} RunsAreMaximal(xs: seq<DataLine>)
    ensures Flatten(Runs(xs)) == xs
    ensures MaximalRuns(Runs(xs))
    ensures xs != [] ==> LastName(Runs(xs)) == NameOf(xs[|xs| - 1])
    decreases |xs|
  {
    if xs != [] {
      var front := xs[..|xs| - 1];
      RunsAreMaximal(front);
      PushKeepsRuns(Runs(front), xs[|xs| - 1]);
      assert Runs(xs) == Push(Runs(front), xs[|xs| - 1]);
      DropLastSnoc(xs);
    }
  }

  /** The runs of one name, in file order. */
  function RunsNamed(runs: seq<seq<DataLine>>, name: string): seq<seq<DataLine>>
    decreases |runs|
  {
    if runs == [] then []
    else
      var last := runs[|runs| - 1];
      RunsNamed(runs[..|runs| - 1], name) + (if RunName(last) == name then [last] else [])
  }

  /** The data lines of one name, in file order. */
  function LinesNamed(xs: seq<DataLine>, name: string): seq<DataLine>
    decreases |xs|
  {
    if xs == [] then []
    else
      var last := xs[|xs| - 1];
      LinesNamed(xs[..|xs| - 1], name) + (if NameOf(last) == name then [last] else [])
  }

  /** The groups of a name: its maximal runs of consecutive non-comment lines. */
  function Groups(lines: seq<string>, name: string): seq<seq<DataLine>>
    requires Readable(lines)
  {
    RunsNamed(Runs(DataLines(lines)), name)
  }

  /** A run as one string, its lines separated by ','. */
  function RunText(run: seq<DataLine>): string
  {
    Join(run, ',')
  }

  function RunTexts(runs: seq<seq<DataLine>>): (texts: seq<string>)
    ensures |texts| == |runs|
    ensures forall k :: 0 <= k < |runs| ==> texts[k] == RunText(runs[k])
  {
    seq(|runs|, k requires 0 <= k < |runs| => RunText(runs[k]))
  }

  /** The runs of a name as one string, runs separated by '|': the value of `dictS[name]`. */
  function GroupText(runs: seq<seq<DataLine>>): string
  {
    Join(RunTexts(runs), '|')
  }

  /** A line that starts a new run of an already seen name is appended after a '|'. */
  lemma GroupTextOpen(runs: seq<seq<DataLine>>, x: DataLine)
    ensures GroupText(runs + [[x]]) == if runs == [] then x else GroupText(runs) + "|" + x
  {
    var texts := RunTexts(runs + [[x]]);
    assert texts[|runs|] == RunText([x]) == x;
    if runs != [] {
      assert texts[..|runs|] == RunTexts(runs);
    }
  }

  /** A line that continues the last run is appended after a ','. */
  lemma GroupTextExtend(front: seq<seq<DataLine>>, last: seq<DataLine>, x: DataLine)
    requires last != []
    ensures GroupText(front + [last + [x]]) == GroupText(front + [last]) + "," + x
  {
    var t1, t0 := RunTexts(front + [last + [x]]), RunTexts(front + [last]);
    assert (last + [x])[..|last|] == last;
    assert t1[|front|] == RunText(last + [x]) == RunText(last) + "," + x;
    assert t1[..|front|] == t0[..|front|] == RunTexts(front);
    if front != [] {
      assert t1[..|front|] + [t1[|front|]] == t1;
      assert t0[..|front|] + [t0[|front|]] == t0;
    } else {
      assert t1 == [RunText(last + [x])];
      assert t0 == [RunText(last)];
    }
  }

  lemma {:induction false} RunsNamedAppend(runs: seq<seq<DataLine>>, more: seq<seq<DataLine>>, name: string)
    ensures RunsNamed(runs + more, name) == RunsNamed(runs, name) + RunsNamed(more, name)
    decreases |more|
  {
    if more == [] {
      AppendNothing(runs);
      AppendNothing(RunsNamed(runs, name));
    } else {
      var m := |more|;
      var all := runs + more;
      AppendDropLast(runs, more);
      var tail := if RunName(more[m - 1]) == name then [more[m - 1]] else [];
      assert RunsNamed(all, name) == RunsNamed(runs + more[..m - 1], name) + tail;
      assert RunsNamed(more, name) == RunsNamed(more[..m - 1], name) + tail;
      RunsNamedAppend(runs, more[..m - 1], name);
      AppendAssoc(RunsNamed(runs, name), RunsNamed(more[..m - 1], name), tail);
    }
  }

  predicate LastRunNonEmpty(runs: seq<seq<DataLine>>)
  {
    runs != [] ==> runs[|runs| - 1] != []
  }

  /** Runs of lines end in a non-empty run. */
  lemma RunsLastNonEmpty(xs: seq<DataLine>)
    ensures LastRunNonEmpty(Runs(xs))
  {
    RunsAreMaximal(xs);
  }

  /** Pushing a line changes the runs of its own name only. */
  lemma PushOtherName(runs: seq<seq<DataLine>>, x: DataLine, name: string)
    requires LastRunNonEmpty(runs) && name != NameOf(x)
    ensures RunsNamed(Push(runs, x), name) == RunsNamed(runs, name)
  {
    if runs != [] && LastName(runs) == NameOf(x) {
      var front, last := runs[..|runs| - 1], runs[|runs| - 1];
      assert runs == front + [last];
      RunsNamedAppend(front, [last], name);
      RunsNamedAppend(front, [last + [x]], name);
      var one, two: seq<seq<DataLine>> := [last], [last + [x]];
      assert one[..0] == [] && two[..0] == [];
    } else {
      RunsNamedAppend(runs, [[x]], name);
      var one: seq<seq<DataLine>> := [[x]];
      assert one[..0] == [];
    }
  }

  /** A line with a new name, or one after a different name, opens a run of its name. */
  lemma PushOpens(runs: seq<seq<DataLine>>, x: DataLine)
    requires !(runs != [] && LastName(runs) == NameOf(x))
    ensures RunsNamed(Push(runs, x), NameOf(x)) == RunsNamed(runs, NameOf(x)) + [[x]]
  {
    RunsNamedAppend(runs, [[x]], NameOf(x));
    var one: seq<seq<DataLine>> := [[x]];
    assert one[..0] == [];
  }

  /** A line after one of the same name extends the last run of its name. */
  lemma PushExtends(runs: seq<seq<DataLine>>, x: DataLine)
    requires runs != [] && LastName(runs) == NameOf(x)
    ensures var front := RunsNamed(runs[..|runs| - 1], NameOf(x));
      && RunsNamed(runs, NameOf(x)) == front + [runs[|runs| - 1]]
      && RunsNamed(Push(runs, x), NameOf(x)) == front + [runs[|runs| - 1] + [x]]
  {
    var front, last := runs[..|runs| - 1], runs[|runs| - 1];
    var r := front + [last + [x]];
    assert r[..|runs| - 1] == front;
  }

  /** A name has runs exactly when it is the name of some run. */
  lemma RunsNamedNonEmpty(runs: seq<seq<DataLine>>, name: string)
    ensures RunsNamed(runs, name) != [] <==> exists k :: 0 <= k < |runs| && RunName(runs[k]) == name
  {
    if RunsNamed(runs, name) != [] {
      var k := RunsNamedWitness(runs, name);
    }
    if exists k :: 0 <= k < |runs| && RunName(runs[k]) == name {
      var k :| 0 <= k < |runs| && RunName(runs[k]) == name;
      RunsNamedHas(runs, name, k);
    }
  }

  lemma {:induction false} RunsNamedHas(runs: seq<seq<DataLine>>, name: string, k: nat)
    requires k < |runs| && RunName(runs[k]) == name
    ensures RunsNamed(runs, name) != []
    decreases |runs|
  {
    var front, last := runs[..|runs| - 1], runs[|runs| - 1];
    var tail := if RunName(last) == name then [last] else [];
    assert RunsNamed(runs, name) == RunsNamed(front, name) + tail;
    if k < |front| {
      assert front[k] == runs[k];
      RunsNamedHas(front, name, k);
    }
  }

  lemma {:induction false} RunsNamedWitness(runs: seq<seq<DataLine>>, name: string) returns (k: nat)
    requires RunsNamed(runs, name) != []
    ensures k < |runs| && RunName(runs[k]) == name
    decreases |runs|
  {
    var front, last := runs[..|runs| - 1], runs[|runs| - 1];
    if RunName(last) == name {
      k := |runs| - 1;
    } else {
      assert RunsNamed(runs, name) == RunsNamed(front, name) + [];
      k := RunsNamedWitness(front, name);
      assert front[k] == runs[k];
    }
  }

  /** The name of the last run always has runs. */
  lemma RunsNamedLast(runs: seq<seq<DataLine>>)
    requires runs != []
    ensures RunsNamed(runs, LastName(runs)) != []
  {
    var front, last := runs[..|runs| - 1], runs[|runs| - 1];
    assert RunsNamed(runs, LastName(runs)) == RunsNamed(front, LastName(runs)) + [last];
  }



  lemma ReadablePrefix(lines: seq<string>, i: nat)
    requires i < |lines| && Readable(lines[..i])
    requires ReadableLine(lines[i])
    ensures Readable(lines[..i + 1])
    ensures lines[i][0] == '#' ==> DataLines(lines[..i + 1]) == DataLines(lines[..i])
    ensures lines[i][0] != '#' ==> DataLines(lines[..i + 1]) == DataLines(lines[..i]) + [lines[i]]
  {
    assert lines[..i + 1][..i] == lines[..i];
    if lines[i][0] == '#' {
      assert DataLines(lines[..i]) + [] == DataLines(lines[..i]);
    }
  }

  lemma RunsSnoc(xs: seq<DataLine>, x: DataLine)
    ensures Runs(xs + [x]) == Push(Runs(xs), x)
  {
    assert (xs + [x])[..|xs|] == xs;
  }

  /** What `dictS` and `earlierName` hold once the lines forming `runs` are read. */
  ghost predicate Tracks(dictS: map<string, string>, earlierName: string, runs: seq<seq<DataLine>>)
  {
    && MaximalRuns(runs)
    && earlierName == LastName(runs)
    && MapTracks(dictS, runs)
  }

  lemma PushOthers(runs: seq<seq<DataLine>>, x: DataLine)
    requires MaximalRuns(runs)
    ensures forall other :: other != NameOf(x) ==> RunsNamed(Push(runs, x), other) == RunsNamed(runs, other)
  {
    forall other | other != NameOf(x)
      ensures RunsNamed(Push(runs, x), other) == RunsNamed(runs, other)
    {
      PushOtherName(runs, x, other);
    }
  }

  /** The map part of `Tracks`, kept apart so that each step only proves what changed. */
  ghost predicate MapTracks(dictS: map<string, string>, runs: seq<seq<DataLine>>)
  {
    && (forall name :: name in dictS <==> RunsNamed(runs, name) != [])
    && (forall name :: name in dictS ==> dictS[name] == GroupText(RunsNamed(runs, name)))
  }

  lemma MapTracksUpdate(dictS: map<string, string>, runs: seq<seq<DataLine>>, after: seq<seq<DataLine>>, name: string, text: string)
    requires MapTracks(dictS, runs)
    requires forall other :: other != name ==> RunsNamed(after, other) == RunsNamed(runs, other)
    requires RunsNamed(after, name) != [] && text == GroupText(RunsNamed(after, name))
    ensures MapTracks(dictS[name := text], after)
  {
  }

  /** The first line of a name: `dictS.Add(name, constLine)`. */
  lemma TracksFirst(dictS: map<string, string>, earlierName: string, runs: seq<seq<DataLine>>, x: DataLine)
    requires Tracks(dictS, earlierName, runs) && NameOf(x) !in dictS
    ensures Tracks(dictS[NameOf(x) := x], NameOf(x), Push(runs, x))
  {
    var name := NameOf(x);
    if runs != [] {
      RunsNamedLast(runs);
    }
    assert !(runs != [] && LastName(runs) == name);
    PushKeepsRuns(runs, x);
    PushOthers(runs, x);
    PushOpens(runs, x);
    GroupTextOpen([], x);
    assert MapTracks(dictS, runs);
    MapTracksUpdate(dictS, runs, Push(runs, x), name, x);
  }

  /** A line after a different name: a new group of its name, after a '|'. */
  lemma TracksOpen(dictS: map<string, string>, earlierName: string, runs: seq<seq<DataLine>>, x: DataLine)
    requires Tracks(dictS, earlierName, runs) && NameOf(x) in dictS && earlierName != NameOf(x)
    ensures Tracks(dictS[NameOf(x) := dictS[NameOf(x)] + "|" + x], NameOf(x), Push(runs, x))
  {
    PushKeepsRuns(runs, x);
    PushOthers(runs, x);
    PushOpens(runs, x);
    GroupTextOpen(RunsNamed(runs, NameOf(x)), x);
    assert MapTracks(dictS, runs);
    MapTracksUpdate(dictS, runs, Push(runs, x), NameOf(x), dictS[NameOf(x)] + "|" + x);
  }

  /** A line after one of the same name: the last group grows, after a ','. */
  lemma TracksExtend(dictS: map<string, string>, earlierName: string, runs: seq<seq<DataLine>>, x: DataLine)
    requires Tracks(dictS, earlierName, runs) && NameOf(x) in dictS && earlierName == NameOf(x)
    ensures Tracks(dictS[NameOf(x) := dictS[NameOf(x)] + "," + x], NameOf(x), Push(runs, x))
  {
    assert runs != [];
    PushKeepsRuns(runs, x);
    PushOthers(runs, x);
    PushExtends(runs, x);
    GroupTextExtend(RunsNamed(runs[..|runs| - 1], NameOf(x)), runs[|runs| - 1], x);
    assert MapTracks(dictS, runs);
    MapTracksUpdate(dictS, runs, Push(runs, x), NameOf(x), dictS[NameOf(x)] + "," + x);
  }

  /**
   * The first loop of the `ConstellationsSnT` constructor
   * (constellationLines.cs:64-80): `dictS` maps each name to the text of its
   * groups, lines of a group joined by ',' and groups by '|', while
   * `earlierName` remembers the name of the previous non-comment line. An
   * empty line or a short non-comment line is the exception `Substring` throws.
   */
  method CollectRuns(lines: seq<string>) returns (r: Result<map<string, string>, CatalogError>)
    ensures r.Success? <==> Readable(lines)
    ensures r.Success? ==> forall name :: name in r.value <==> Groups(lines, name) != []
    ensures r.Success? ==> forall name :: name in r.value ==> r.value[name] == GroupText(Groups(lines, name))
  {
    var dictS: map<string, string> := map[];
    var earlierName := "";
    ghost var runs: seq<seq<DataLine>> := [];
    var i := 0;
    while i < |lines|
      invariant 0 <= i <= |lines|
      invariant Scanned(lines, i, runs)
      invariant Tracks(dictS, earlierName, runs)
    {
      var constLine := lines[i];
      if |constLine| == 0 {
        return Failure(EmptyLine);
      }
      if constLine[0] != '#' && |constLine| < 32 {
        return Failure(LineTooShort);
      }
      dictS, earlierName, runs := ReadLine(lines, i, dictS, earlierName, runs);
      i := i + 1;
    }
    ScannedAll(lines, runs);
    return Success(dictS);
  }

  method ReadLine(lines: seq<string>, i: nat, dictS: map<string, string>, earlierName: string, ghost runs: seq<seq<DataLine>>)
    returns (dictS': map<string, string>, earlierName': string, ghost runs': seq<seq<DataLine>>)
    requires i < |lines| && ReadableLine(lines[i])
    requires Scanned(lines, i, runs) && Tracks(dictS, earlierName, runs)
    ensures Scanned(lines, i + 1, runs') && Tracks(dictS', earlierName', runs')
  {
    ScannedStep(lines, i, runs);
    var constLine := lines[i];
    if constLine[0] != '#' {
      dictS', earlierName' := AddLine(dictS, earlierName, runs, constLine);
      runs' := Push(runs, constLine);
    } else {
      dictS', earlierName', runs' := dictS, earlierName, runs;
    }
  }

  /** The first `i` lines are readable and `runs` are the runs of their data lines. */
  ghost predicate Scanned(lines: seq<string>, i: nat, runs: seq<seq<DataLine>>)
    requires i <= |lines|
  {
    Readable(lines[..i]) && runs == Runs(DataLines(lines[..i]))
  }

  lemma ScannedStep(lines: seq<string>, i: nat, runs: seq<seq<DataLine>>)
    requires i < |lines| && Scanned(lines, i, runs) && ReadableLine(lines[i])
    ensures lines[i][0] == '#' ==> Scanned(lines, i + 1, runs)
    ensures lines[i][0] != '#' ==> Scanned(lines, i + 1, Push(runs, lines[i]))
  {
    ReadablePrefix(lines, i);
    if lines[i][0] != '#' {
      RunsSnoc(DataLines(lines[..i]), lines[i]);
    }
  }

  lemma ScannedAll(lines: seq<string>, runs: seq<seq<DataLine>>)
    requires Scanned(lines, |lines|, runs)
    ensures Readable(lines) && runs == Runs(DataLines(lines))
  {
    assert lines[..|lines|] == lines;
  }

  /**
   * One data line read into `dictS` (constellationLines.cs:68-78): the first
   * line of a name is stored as is; a later one is appended after '|' when
   * the line before it had another name, after ',' otherwise.
   */
  method AddLine(dictS: map<string, string>, earlierName: string, ghost runs: seq<seq<DataLine>>, constLine: DataLine)
    returns (dictS': map<string, string>, earlierName': string)
    requires Tracks(dictS, earlierName, runs)
    ensures Tracks(dictS', earlierName', Push(runs, constLine))
  {
    var name := constLine[28..32];
    assert name == NameOf(constLine);
    if name !in dictS {
      TracksFirst(dictS, earlierName, runs, constLine);
      dictS' := dictS[name := constLine];
    } else {
      var sep;
      if earlierName != name {
        sep := "|";
        TracksOpen(dictS, earlierName, runs, constLine);
      } else {
        sep := ",";
        TracksExtend(dictS, earlierName, runs, constLine);
      }
      dictS' := dictS[name := dictS[name] + sep + constLine];
    }
    earlierName' := name;
  }

  /** The dictionary key of group `j` of a name: `name + j.ToString()`. */
  function Key(name: string, j: nat): string
  {
    name + NatToString(j)
  }

  /** Keys of names of one length are distinct for distinct (name, j). */
  lemma KeyInjective(n1: string, j1: nat, n2: string, j2: nat)
    requires |n1| == |n2| && Key(n1, j1) == Key(n2, j2)
    ensures n1 == n2 && j1 == j2
  {
    var key := Key(n1, j1);
    assert n1 == key[..|n1|] == n2;
    assert NatToString(j1) == key[|n1|..] == NatToString(j2);
    NatToStringInjective(j1, j2);
  }

  /** The groups held in a `dictS` value, split back at '|'. */
  function Pieces(text: string): seq<string>
  {
    Split(text, '|')
  }

  /** Every line of a piece, split at ',', parses. */
  predicate PieceParses(piece: string, parse: string -> Option<real>)
  {
    ParseAll(Split(piece, ','), parse).Success?
  }

  predicate TextParses(text: string, parse: string -> Option<real>)
  {
    forall j :: 0 <= j < |Pieces(text)| ==> PieceParses(Pieces(text)[j], parse)
  }

  /** The points of group `j` of a `dictS` value; none when there is no such group or it does not parse. */
  function Arcs(text: string, j: nat, parse: string -> Option<real>): seq<ArcPoint>
  {
    if j < |Pieces(text)| && PieceParses(Pieces(text)[j], parse) then ParseAll(Split(Pieces(text)[j], ','), parse).value else []
  }

  /** The keys a part of `dictS` gives rise to, and their points. */
  ghost predicate Expanded(dictS: map<string, string>, names: set<string>, dict: map<string, seq<ArcPoint>>, parse: string -> Option<real>)
  {
    && (forall name :: name in names && name in dictS ==> TextParses(dictS[name], parse))
    && (forall name, j :: name in names && name in dictS && 0 <= j < |Pieces(dictS[name])| ==>
          Key(name, j) in dict && dict[Key(name, j)] == Arcs(dictS[name], j, parse))
    && (forall key :: key in dict ==>
          exists name, j :: name in names && name in dictS && 0 <= j < |Pieces(dictS[name])| && key == Key(name, j))
  }

  /** Parsing the points of one group into a fresh array, as the innermost loop does. */
  method ParseGroup(piece: string, parse: string -> Option<real>) returns (r: Result<seq<ArcPoint>, CatalogError>)
    ensures r.Success? <==> PieceParses(piece, parse)
    ensures r.Success? ==> r.value == ParseAll(Split(piece, ','), parse).value
  {
    var line := Split(piece, ',');
    var m := |line|;
    var arcsObjArray := new ArcPoint[m];
    var k := 0;
    while k < m
      invariant 0 <= k <= m
      invariant ParseAll(line[..k], parse).Success? && arcsObjArray[..k] == ParseAll(line[..k], parse).value
    {
      assert line[..k + 1][..k] == line[..k];
      match ParseArc(line[k], parse) {
        case Failure(e) =>
          assert !ParseAll(line, parse).Success?;
          return Failure(e);
        case Success(p) =>
          Place(arcsObjArray, k, p);
      }
      k := k + 1;
    }
    assert line[..k] == line;
    return Success(arcsObjArray[..]);
  }

  /** The key of a name not yet visited is not in the dictionary. */
  lemma KeyFresh(dictS: map<string, string>, done: set<string>, dict: map<string, seq<ArcPoint>>, name: string, j: nat, parse: string -> Option<real>)
    requires forall n :: n in dictS ==> |n| == 4
    requires Expanded(dictS, done, dict, parse) && name in dictS && name !in done
    ensures Key(name, j) !in dict
  {
    if Key(name, j) in dict {
      var n, jj :| n in done && n in dictS && 0 <= jj < |Pieces(dictS[n])| && Key(name, j) == Key(n, jj);
      KeyInjective(name, j, n, jj);
    }
  }

  /** Once all groups of `name` are stored, `name` counts as visited. */
  lemma ExpandedAdd(dictS: map<string, string>, done: set<string>, dict0: map<string, seq<ArcPoint>>,
                    dict: map<string, seq<ArcPoint>>, name: string, groups: seq<seq<ArcPoint>>, parse: string -> Option<real>)
    requires Expanded(dictS, done, dict0, parse) && name in dictS
    requires Stored(dict0, dict, name, groups) && |groups| == |Pieces(dictS[name])|
    requires forall jj :: 0 <= jj < |groups| ==> PieceParses(Pieces(dictS[name])[jj], parse) && groups[jj] == Arcs(dictS[name], jj, parse)
    ensures Expanded(dictS, done + {name}, dict, parse)
  {
    ExpandedAddParses(dictS, done, dict0, name, groups, parse);
    ExpandedAddStored(dictS, done, dict0, dict, name, groups, parse);
    ExpandedAddKeys(dictS, done, dict0, dict, name, groups, parse);
  }

  lemma ExpandedAddParses(dictS: map<string, string>, done: set<string>, dict0: map<string, seq<ArcPoint>>,
                          name: string, groups: seq<seq<ArcPoint>>, parse: string -> Option<real>)
    requires Expanded(dictS, done, dict0, parse) && name in dictS && |groups| == |Pieces(dictS[name])|
    requires forall jj :: 0 <= jj < |groups| ==> PieceParses(Pieces(dictS[name])[jj], parse) && groups[jj] == Arcs(dictS[name], jj, parse)
    ensures forall n :: n in done + {name} && n in dictS ==> TextParses(dictS[n], parse)
  {
    forall n | n in done + {name} && n in dictS
      ensures TextParses(dictS[n], parse)
    {
      if n != name {
        assert n in done;
      }
    }
  }

  lemma ExpandedAddStored(dictS: map<string, string>, done: set<string>, dict0: map<string, seq<ArcPoint>>,
                          dict: map<string, seq<ArcPoint>>, name: string, groups: seq<seq<ArcPoint>>, parse: string -> Option<real>)
    requires Expanded(dictS, done, dict0, parse) && name in dictS
    requires Stored(dict0, dict, name, groups) && |groups| == |Pieces(dictS[name])|
    requires forall jj :: 0 <= jj < |groups| ==> PieceParses(Pieces(dictS[name])[jj], parse) && groups[jj] == Arcs(dictS[name], jj, parse)
    ensures forall n, j :: n in done + {name} && n in dictS && 0 <= j < |Pieces(dictS[n])| ==>
              Key(n, j) in dict && dict[Key(n, j)] == Arcs(dictS[n], j, parse)
  {
    forall n, j | n in done + {name} && n in dictS && 0 <= j < |Pieces(dictS[n])|
      ensures Key(n, j) in dict && dict[Key(n, j)] == Arcs(dictS[n], j, parse)
    {
      if n == name {
        assert Key(name, j) in dict && dict[Key(name, j)] == groups[j];
      } else {
        assert n in done;
        assert Key(n, j) in dict0 && dict0[Key(n, j)] == Arcs(dictS[n], j, parse);
      }
    }
  }

  lemma ExpandedAddKeys(dictS: map<string, string>, done: set<string>, dict0: map<string, seq<ArcPoint>>,
                        dict: map<string, seq<ArcPoint>>, name: string, groups: seq<seq<ArcPoint>>, parse: string -> Option<real>)
    requires Expanded(dictS, done, dict0, parse) && name in dictS
    requires Stored(dict0, dict, name, groups) && |groups| == |Pieces(dictS[name])|
    ensures forall key :: key in dict ==>
              exists n, j :: n in done + {name} && n in dictS && 0 <= j < |Pieces(dictS[n])| && key == Key(n, j)
  {
    forall key | key in dict
      ensures exists n, j :: n in done + {name} && n in dictS && 0 <= j < |Pieces(dictS[n])| && key == Key(n, j)
    {
      if key in dict0 {
        var n, j :| n in done && n in dictS && 0 <= j < |Pieces(dictS[n])| && key == Key(n, j);
        assert n in done + {name};
      } else {
        var jj :| 0 <= jj < |Pieces(dictS[name])| && key == Key(name, jj);
        assert name in done + {name};
      }
    }
  }

  /** `d` is `dict` with `groups[jj]` stored under `name + jj` for each `jj`. */
  ghost predicate Stored(dict: map<string, seq<ArcPoint>>, d: map<string, seq<ArcPoint>>,
                         name: string, groups: seq<seq<ArcPoint>>)
  {
    && (forall key :: key in dict ==> key in d && d[key] == dict[key])
    && (forall key :: key in d ==> key in dict || exists jj :: 0 <= jj < |groups| && key == Key(name, jj))
    && (forall jj :: 0 <= jj < |groups| ==> Key(name, jj) in d && d[Key(name, jj)] == groups[jj])
  }

  /** Storing the next group under a fresh key keeps everything stored so far. */
  lemma StoreNext(dict: map<string, seq<ArcPoint>>, d: map<string, seq<ArcPoint>>,
                  name: string, groups: seq<seq<ArcPoint>>, arcs: seq<ArcPoint>)
    requires Stored(dict, d, name, groups) && Key(name, |groups|) !in dict
    ensures Stored(dict, d[Key(name, |groups|) := arcs], name, groups + [arcs])
  {
    var key := Key(name, |groups|);
    var d', groups' := d[key := arcs], groups + [arcs];
    forall jj | 0 <= jj < |groups|
      ensures Key(name, jj) != key
    {
      if Key(name, jj) == key {
        KeyInjective(name, jj, name, |groups|);
      }
    }
    forall k | k in d'
      ensures k in dict || exists jj :: 0 <= jj < |groups'| && k == Key(name, jj)
    {
      if k == key {
        assert k == Key(name, |groups|);
      }
    }
    forall jj | 0 <= jj < |groups'|
      ensures Key(name, jj) in d' && d'[Key(name, jj)] == groups'[jj]
    {
      if jj < |groups| {
        assert Key(name, jj) in d;
      }
    }
  }

  /**
   * One pass of the `foreach` body (constellationLines.cs:83-96): the groups
   * of `name` are stored under `name + 0`, `name + 1`, ... in `dict`.
   */
  method ExpandName(dictS: map<string, string>, ghost done: set<string>, dict: map<string, seq<ArcPoint>>, name: string, parse: string -> Option<real>)
    returns (r: Result<map<string, seq<ArcPoint>>, CatalogError>)
    requires forall n :: n in dictS ==> |n| == 4
    requires Expanded(dictS, done, dict, parse) && name in dictS && name !in done
    ensures r.Success? <==> TextParses(dictS[name], parse)
    ensures r.Success? ==> Expanded(dictS, done + {name}, r.value, parse)
  {
    var d := dict;
    ghost var groups: seq<seq<ArcPoint>> := [];
    var lines := Pieces(dictS[name]);
    var j := 0;
    while j < |lines|
      invariant 0 <= j <= |lines| && |groups| == j
      invariant forall jj :: 0 <= jj < j ==> PieceParses(lines[jj], parse) && groups[jj] == Arcs(dictS[name], jj, parse)
      invariant Stored(dict, d, name, groups)
    {
      var arcs := ParseGroup(lines[j], parse);
      if arcs.Failure? {
        assert !TextParses(dictS[name], parse);
        return Failure(arcs.error);
      }
      assert PieceParses(lines[j], parse) && arcs.value == Arcs(dictS[name], j, parse);
      KeyFresh(dictS, done, dict, name, j, parse);
      StoreNext(dict, d, name, groups, arcs.value);
      d := d[name + NatToString(j) := arcs.value];
      ghost var prev := groups;
      groups := groups + [arcs.value];
      forall jj | 0 <= jj < j + 1
        ensures PieceParses(lines[jj], parse) && groups[jj] == Arcs(dictS[name], jj, parse)
      {
        if jj < j {
          assert groups[jj] == prev[jj];
        }
      }
      j := j + 1;
    }
    ExpandedAdd(dictS, done, dict, d, name, groups, parse);
    return Success(d);
  }

  /**
   * The second loop of the `ConstellationsSnT` constructor
   * (constellationLines.cs:81-97): each name's text is split at '|' into its
   * groups and each group at ',' into its lines, and group `j` of a name is
   * stored under `name + j`. The dictionary is visited in no particular order.
   */
  method ExpandRuns(dictS: map<string, string>, parse: string -> Option<real>) returns (r: Result<map<string, seq<ArcPoint>>, CatalogError>)
    requires forall name :: name in dictS ==> |name| == 4
    ensures r.Success? <==> forall name :: name in dictS ==> TextParses(dictS[name], parse)
    ensures r.Success? ==> Expanded(dictS, dictS.Keys, r.value, parse)
  {
    var dict: map<string, seq<ArcPoint>> := map[];
    var remaining := dictS.Keys;
    while remaining != {}
      invariant remaining <= dictS.Keys
      invariant Expanded(dictS, dictS.Keys - remaining, dict, parse)
      decreases |remaining|
    {
      var name :| name in remaining;
      var next := ExpandName(dictS, dictS.Keys - remaining, dict, name, parse);
      if next.Failure? {
        return next;
      }
      assert (dictS.Keys - remaining) + {name} == dictS.Keys - (remaining - {name});
      dict := next.value;
      remaining := remaining - {name};
    }
    assert dictS.Keys - remaining == dictS.Keys;
    return Success(dict);
  }

  /** Data lines contain neither separator the grouping joins them with. */
  predicate NoSeparators(lines: seq<string>)
  {
    forall i :: 0 <= i < |lines| && |lines[i]| > 0 && lines[i][0] != '#' ==> ',' !in lines[i] && '|' !in lines[i]
  }

  lemma {:induction false} DataLinesMember(lines: seq<string>, x: string)
    requires Readable(lines) && x in DataLines(lines)
    ensures x in lines && |x| > 0 && x[0] != '#'
    decreases |lines|
  {
    var front := lines[..|lines| - 1];
    if x in DataLines(front) {
      DataLinesMember(front, x);
    }
  }

  lemma {:induction false} FlattenMember(runs: seq<seq<DataLine>>, x: DataLine)
    ensures x in Flatten(runs) <==> exists k :: 0 <= k < |runs| && x in runs[k]
    decreases |runs|
  {
    if runs != [] {
      var front, last := runs[..|runs| - 1], runs[|runs| - 1];
      FlattenMember(front, x);
      assert Flatten(runs) == Flatten(front) + last;
      if x in Flatten(runs) && x !in last {
        var k :| 0 <= k < |front| && x in front[k];
        assert runs[k] == front[k];
      }
      if exists k :: 0 <= k < |runs| && x in runs[k] {
        var k :| 0 <= k < |runs| && x in runs[k];
        if k < |front| {
          assert front[k] == runs[k];
          assert x in Flatten(front);
        }
      }
    }
  }


  /** The runs of a name are runs of that name, and every run is among the runs of its name. */
  lemma {:induction false} RunsNamedMember(runs: seq<seq<DataLine>>, name: string)
    ensures forall run :: run in RunsNamed(runs, name) ==> run in runs && RunName(run) == name
    ensures forall run :: run in runs && RunName(run) == name ==> run in RunsNamed(runs, name)
    decreases |runs|
  {
    if runs != [] {
      RunsNamedMember(runs[..|runs| - 1], name);
    }
  }

  /** The lines of a group are data lines of the file. */
  lemma GroupLineInFile(lines: seq<string>, name: string, g: seq<DataLine>, x: DataLine)
    requires Readable(lines) && g in Groups(lines, name) && x in g
    ensures x in DataLines(lines) && x in lines && x[0] != '#'
  {
    var xs := DataLines(lines);
    RunsAreMaximal(xs);
    RunsNamedMember(Runs(xs), name);
    var k :| 0 <= k < |Runs(xs)| && Runs(xs)[k] == g;
    FlattenMember(Runs(xs), x);
    DataLinesMember(lines, x);
  }

  /** Every data line of the file is in some group of its name. */
  lemma DataLineInGroup(lines: seq<string>, x: DataLine)
    requires Readable(lines) && x in DataLines(lines)
    ensures exists j :: 0 <= j < |Groups(lines, NameOf(x))| && x in Groups(lines, NameOf(x))[j]
  {
    var xs := DataLines(lines);
    RunsAreMaximal(xs);
    FlattenMember(Runs(xs), x);
    var k :| 0 <= k < |Runs(xs)| && x in Runs(xs)[k];
    var run := Runs(xs)[k];
    var m :| 0 <= m < |run| && run[m] == x;
    assert NameOf(x) == RunName(run);
    RunsNamedMember(Runs(xs), NameOf(x));
    assert run in Groups(lines, NameOf(x));
  }

  /** Splitting a name's `dictS` text at '|' and ',' gives back its groups. */
  lemma GroupTextDecodes(lines: seq<string>, name: string)
    requires Readable(lines) && NoSeparators(lines) && Groups(lines, name) != []
    ensures |Pieces(GroupText(Groups(lines, name)))| == |Groups(lines, name)|
    ensures forall j :: 0 <= j < |Groups(lines, name)| ==>
      Split(Pieces(GroupText(Groups(lines, name)))[j], ',') == Groups(lines, name)[j]
  {
    var g := Groups(lines, name);
    var xs := DataLines(lines);
    RunsAreMaximal(xs);
    RunsNamedMember(Runs(xs), name);
    forall j | 0 <= j < |g|
      ensures g[j] != [] && forall m :: 0 <= m < |g[j]| ==> ',' !in g[j][m] && '|' !in g[j][m]
    {
      assert g[j] in g;
      forall m | 0 <= m < |g[j]|
        ensures ',' !in g[j][m] && '|' !in g[j][m]
      {
        GroupLineInFile(lines, name, g[j], g[j][m]);
      }
    }
    var texts := RunTexts(g);
    forall j | 0 <= j < |g|
      ensures '|' !in texts[j] && Split(texts[j], ',') == g[j]
    {
      JoinAvoids(g[j], ',', '|');
      SplitJoin(g[j], ',');
    }
    SplitJoin(texts, '|');
  }

  /** Every data line of the file parses. */
  predicate AllParse(lines: seq<string>, parse: string -> Option<real>)
    requires Readable(lines)
  {
    forall x :: x in DataLines(lines) ==> ParseArc(x, parse).Success?
  }

  /** The names in `dictS` are the four-character name fields. */
  lemma GroupNameLength(lines: seq<string>, name: string)
    requires Readable(lines) && Groups(lines, name) != []
    ensures |name| == 4
  {
    var g := Groups(lines, name);
    RunsAreMaximal(DataLines(lines));
    RunsNamedMember(Runs(DataLines(lines)), name);
    assert g[0] in g;
    GroupLineInFile(lines, name, g[0], g[0][0]);
  }

  /** The text of a name parses exactly when every line of its groups parses, into the groups' points. */
  lemma GroupTextParses(lines: seq<string>, name: string, parse: string -> Option<real>)
    requires Readable(lines) && NoSeparators(lines) && Groups(lines, name) != []
    ensures |Pieces(GroupText(Groups(lines, name)))| == |Groups(lines, name)|
    ensures TextParses(GroupText(Groups(lines, name)), parse) <==>
      forall j :: 0 <= j < |Groups(lines, name)| ==> ParseAll(Groups(lines, name)[j], parse).Success?
    ensures TextParses(GroupText(Groups(lines, name)), parse) ==>
      forall j :: 0 <= j < |Groups(lines, name)| ==>
        ParseAll(Groups(lines, name)[j], parse) == Success(Arcs(GroupText(Groups(lines, name)), j, parse))
  {
    GroupTextDecodes(lines, name);
  }

  /** The dictionary of the second phase, described by the file's groups. */
  ghost predicate CatalogOf(lines: seq<string>, dict: map<string, seq<ArcPoint>>, parse: string -> Option<real>)
    requires Readable(lines)
  {
    && (forall name, j :: 0 <= j < |Groups(lines, name)| ==>
          Key(name, j) in dict && ParseAll(Groups(lines, name)[j], parse) == Success(dict[Key(name, j)]))
    && (forall key :: key in dict ==> exists name, j :: 0 <= j < |Groups(lines, name)| && key == Key(name, j))
  }

  lemma {:induction false} AllParseIff(lines: seq<string>, dictS: map<string, string>, parse: string -> Option<real>)
    requires Readable(lines) && NoSeparators(lines)
    requires forall name :: name in dictS <==> Groups(lines, name) != []
    requires forall name :: name in dictS ==> dictS[name] == GroupText(Groups(lines, name))
    ensures AllParse(lines, parse) <==> forall name :: name in dictS ==> TextParses(dictS[name], parse)
  {
    if AllParse(lines, parse) {
      forall name | name in dictS
        ensures TextParses(dictS[name], parse)
      {
        var g := Groups(lines, name);
        GroupTextParses(lines, name, parse);
        forall j | 0 <= j < |g|
          ensures ParseAll(g[j], parse).Success?
        {
          assert g[j] in g;
          forall m | 0 <= m < |g[j]|
            ensures ParseArc(g[j][m], parse).Success?
          {
            GroupLineInFile(lines, name, g[j], g[j][m]);
          }
        }
      }
    }
    if forall name :: name in dictS ==> TextParses(dictS[name], parse) {
      forall x | x in DataLines(lines)
        ensures ParseArc(x, parse).Success?
      {
        DataLineInGroup(lines, x);
        var name := NameOf(x);
        var g := Groups(lines, name);
        var j :| 0 <= j < |g| && x in g[j];
        GroupTextParses(lines, name, parse);
        assert ParseAll(g[j], parse).Success?;
      }
    }
  }

  lemma CatalogFromExpanded(lines: seq<string>, dictS: map<string, string>, dict: map<string, seq<ArcPoint>>, parse: string -> Option<real>)
    requires Readable(lines) && NoSeparators(lines)
    requires forall name :: name in dictS <==> Groups(lines, name) != []
    requires forall name :: name in dictS ==> dictS[name] == GroupText(Groups(lines, name))
    requires Expanded(dictS, dictS.Keys, dict, parse)
    ensures CatalogOf(lines, dict, parse)
  {
    forall name, j | 0 <= j < |Groups(lines, name)|
      ensures Key(name, j) in dict && ParseAll(Groups(lines, name)[j], parse) == Success(dict[Key(name, j)])
    {
      GroupTextDecodes(lines, name);
      GroupTextParses(lines, name, parse);
    }
    forall key | key in dict
      ensures exists name, j :: 0 <= j < |Groups(lines, name)| && key == Key(name, j)
    {
      var name, j :| name in dictS.Keys && name in dictS && 0 <= j < |Pieces(dictS[name])| && key == Key(name, j);
      GroupTextDecodes(lines, name);
    }
  }

  /**
   * The `ConstellationsSnT` constructor (constellationLines.cs:60-99): it
   * fails exactly when a line cannot be read or a data line does not parse;
   * otherwise group `j` of each name is stored, parsed, under `name + j`,
   * and nothing else is stored.
   */
  method BuildCatalog(lines: seq<string>, parse: string -> Option<real>) returns (r: Result<map<string, seq<ArcPoint>>, CatalogError>)
    requires NoSeparators(lines)
    ensures r.Success? <==> Readable(lines) && AllParse(lines, parse)
    ensures r.Success? ==> Readable(lines) && CatalogOf(lines, r.value, parse)
  {
    var collected := CollectRuns(lines);
    if collected.Failure? {
      return Failure(collected.error);
    }
    var dictS := collected.value;
    forall name | name in dictS
      ensures |name| == 4
    {
      GroupNameLength(lines, name);
    }
    AllParseIff(lines, dictS, parse);
    r := ExpandRuns(dictS, parse);
    if r.Success? {
      CatalogFromExpanded(lines, dictS, r.value, parse);
    }
  }

  /** One more line adds itself to the lines of its name and nothing to the others. */
  lemma FlattenNamedStep(runs: seq<seq<DataLine>>, x: DataLine, name: string)
    requires LastRunNonEmpty(runs)
    ensures Flatten(RunsNamed(Push(runs, x), name)) == Flatten(RunsNamed(runs, name)) + (if NameOf(x) == name then [x] else [])
  {
    if NameOf(x) != name {
      PushOtherName(runs, x, name);
      assert Flatten(RunsNamed(runs, name)) + [] == Flatten(RunsNamed(runs, name));
    } else if runs != [] && LastName(runs) == NameOf(x) {
      PushExtends(runs, x);
      var f := RunsNamed(runs[..|runs| - 1], name);
      var last := runs[|runs| - 1];
      FlattenSnoc(f, last);
      FlattenSnoc(f, last + [x]);
      assert Flatten(f) + (last + [x]) == (Flatten(f) + last) + [x];
    } else {
      PushOpens(runs, x);
      FlattenSnoc(RunsNamed(runs, name), [x]);
    }
  }

  /** Concatenating the runs of a name gives the lines of that name, in order. */
  lemma {:induction false} FlattenRunsNamed(xs: seq<DataLine>, name: string)
    ensures Flatten(RunsNamed(Runs(xs), name)) == LinesNamed(xs, name)
    decreases |xs|
  {
    if xs != [] {
      var front, x := xs[..|xs| - 1], xs[|xs| - 1];
      assert Runs(xs) == Push(Runs(front), x);
      assert LinesNamed(xs, name) == LinesNamed(front, name) + (if NameOf(x) == name then [x] else []);
      FlattenRunsNamed(front, name);
      RunsLastNonEmpty(front);
      FlattenNamedStep(Runs(front), x, name);
    }
  }



  /**
   * Every data line lands in the groups of its own name, and the groups of a
   * name, concatenated in key order, are that name's data lines in file order.
   */
  lemma GroupsPartitionLines(lines: seq<string>, name: string)
    requires Readable(lines)
    ensures Flatten(Groups(lines, name)) == LinesNamed(DataLines(lines), name)
    ensures forall g :: g in Groups(lines, name) ==> g != [] && forall x :: x in g ==> NameOf(x) == name
  {
    var xs := DataLines(lines);
    FlattenRunsNamed(xs, name);
    RunsAreMaximal(xs);
    RunsNamedMember(Runs(xs), name);
    forall g, x | g in Groups(lines, name) && x in g
      ensures NameOf(x) == name
    {
      var k :| 0 <= k < |Runs(xs)| && Runs(xs)[k] == g;
      var m :| 0 <= m < |g| && g[m] == x;
    }
  }

  /**
   * A group is a maximal run: consecutive groups of the whole file never
   * share a name, so a new group of a name starts exactly when the previous
   * data line had another name.
   */
  lemma GroupsAreMaximalRuns(lines: seq<string>)
    requires Readable(lines)
    ensures Flatten(Runs(DataLines(lines))) == DataLines(lines)
    ensures MaximalRuns(Runs(DataLines(lines)))
  {
    RunsAreMaximal(DataLines(lines));
  }

  lemma {:induction false} DataLinesAppend(a: seq<string>, b: seq<string>)
    requires Readable(a) && Readable(b)
    ensures Readable(a + b)
    ensures DataLines(a + b) == DataLines(a) + DataLines(b)
    decreases |b|
  {
    ReadableAppend(a, b);
    if b == [] {
      AppendNothing(a);
      AppendNothing(DataLines(a));
    } else {
      var front, last := b[..|b| - 1], b[|b| - 1];
      DataLinesAppend(a, front);
      AppendDropLast(a, b);
      var tail: seq<DataLine> := if last[0] == '#' then [] else [last];
      assert DataLines(a + b) == DataLines(a + front) + tail;
      assert DataLines(b) == DataLines(front) + tail;
      AppendAssoc(DataLines(a), DataLines(front), tail);
    }
  }

  /** Readable lines stay readable side by side, and so does a prefix of them. */
  lemma ReadableAppend(a: seq<string>, b: seq<string>)
    requires Readable(a) && Readable(b)
    ensures Readable(a + b)
    ensures b != [] ==> Readable(b[..|b| - 1])
  {
    forall i | 0 <= i < |a + b|
      ensures ReadableLine((a + b)[i])
    {
      if i < |a| {
        assert (a + b)[i] == a[i];
      } else {
        assert (a + b)[i] == b[i - |a|];
      }
    }
    if b != [] {
      var front := b[..|b| - 1];
      forall i | 0 <= i < |front|
        ensures ReadableLine(front[i])
      {
        assert front[i] == b[i];
      }
    }
  }


  lemma {:induction false} CommentsOnly(c: seq<string>)
    requires forall i :: 0 <= i < |c| ==> |c[i]| > 0 && c[i][0] == '#'
    ensures Readable(c) && DataLines(c) == []
    decreases |c|
  {
    if c != [] {
      CommentsOnly(c[..|c| - 1]);
    }
  }

  /** Comment lines inserted anywhere change no group: they do not even break a run. */
  lemma CommentsTransparent(a: seq<string>, c: seq<string>, b: seq<string>, name: string)
    requires Readable(a) && Readable(b)
    requires forall i :: 0 <= i < |c| ==> |c[i]| > 0 && c[i][0] == '#'
    ensures Readable(a + c + b) && Readable(a + b)
    ensures Groups(a + c + b, name) == Groups(a + b, name)
  {
    CommentsOnly(c);
    DataLinesAppend(a, c);
    DataLinesAppend(a + c, b);
    DataLinesAppend(a, b);
    assert DataLines(a) + [] == DataLines(a);
  }

  /** Lines of one name share their style code: a line whose coordinates parse reads the style of the others. */
  lemma SameNameSameStyle(x: DataLine, y: DataLine, parse: string -> Option<real>)
    requires NameOf(x) == NameOf(y) && ParseArc(x, parse).Success?
    requires parse(y[6..14]).Some? && parse(y[15..23]).Some?
    ensures ParseArc(y, parse).Success? && ParseArc(y, parse).value.style == ParseArc(x, parse).value.style
  {
    assert x[StyleColumn] == NameOf(x)[0] == NameOf(y)[0] == y[StyleColumn];
  }

  /** All points of a group share the style of its first point. */
  lemma GroupSharesStyle(lines: seq<string>, name: string, j: nat, parse: string -> Option<real>)
    requires Readable(lines) && j < |Groups(lines, name)| && ParseAll(Groups(lines, name)[j], parse).Success?
    ensures var points := ParseAll(Groups(lines, name)[j], parse).value;
      points != [] && forall m :: 0 <= m < |points| ==> points[m].style == points[0].style
  {
    var g := Groups(lines, name);
    GroupsPartitionLines(lines, name);
    assert g[j] in g;
    forall m | 0 <= m < |g[j]|
      ensures ParseArc(g[j][m], parse).value.style == ParseArc(g[j][0], parse).value.style
    {
      assert NameOf(g[j][m]) == name == NameOf(g[j][0]);
      SameNameSameStyle(g[j][0], g[j][m], parse);
    }
  }

  /** The divisor the arc loop uses as pi (the literal `3.1416f`). */
  const PiLiteral: real := 3.1416

  /**
   * The sample count of an arc as written (constellationLines.cs:122-123):
   * `angle` is `Vector3.Angle`, already in degrees, and the code converts it
   * once more as if it were in radians before dividing by the resolution.
   */
  function ArcSampleCountAsWritten(angle: real, resolution: real): (na: int)
    requires resolution != 0.0
    ensures na >= 2
    ensures angle * 180.0 / PiLiteral / resolution < 1.5 ==> na == 2
    ensures angle * 180.0 / PiLiteral / resolution >= 0.5 ==>
      -0.5 <= (na - 1) as real - angle * 180.0 / PiLiteral / resolution <= 0.5
  {
    MaxInt(1, RoundHalfEven(angle * 180.0 / PiLiteral / resolution)) + 1
  }

  /** A ten-degree arc at the default five-degree resolution gets 116 samples as written, not 3. */
  lemma ArcSampleCountOverConverts()
    ensures ArcSampleCountAsWritten(10.0, 5.0) == 116
    ensures ArcSampleCount(10.0, 5.0) == 3
  {
    var x := 10.0 * 180.0 / PiLiteral / 5.0;
    assert 114.5 < x < 115.5;
    RoundHalfEvenUnique(x, 115);
    RoundHalfEvenUnique(2.0, 2);
  }

  /**
   * The sample count of an arc with the angle taken in degrees, as the
   * resolution is: `max(1, round(angle / resolution)) + 1`, so consecutive
   * samples are about `resolution` degrees apart.
   */
  function ArcSampleCount(angle: real, resolution: real): (na: int)
    requires resolution != 0.0
    ensures na >= 2
    ensures angle / resolution < 1.5 ==> na == 2
    ensures angle / resolution >= 0.5 ==> -0.5 <= (na - 1) as real - angle / resolution <= 0.5
  {
    MaxInt(1, RoundHalfEven(angle / resolution)) + 1
  }

  /** The `k`-th of `na` sample parameters, `k / (na - 1)`. */
  function SampleAt(k: nat, na: int): real
    requires na >= 2
  {
    k as real / (na - 1) as real
  }

  /** The first sample is the arc's start and the last its end. */
  lemma SampleEnds(na: int)
    requires na >= 2
    ensures SampleAt(0, na) == 0.0 && SampleAt(na - 1, na) == 1.0
  {
  }

  /** Consecutive samples are one `(na - 1)`-th apart. */
  lemma SampleSpacing(k: nat, na: int)
    requires na >= 2
    ensures SampleAt(k + 1, na) - SampleAt(k, na) == 1.0 / (na - 1) as real
  {
    var d := (na - 1) as real;
    calc {
      SampleAt(k + 1, na) - SampleAt(k, na);
      (k as real + 1.0) / d - k as real / d;
      ((k as real + 1.0) - k as real) / d;
      1.0 / d;
    }
  }

  /** Every sample lies on the arc, between its endpoints. */
  lemma SampleWithin(k: nat, na: int)
    requires na >= 2 && k < na
    ensures 0.0 <= SampleAt(k, na) <= 1.0
  {
    DivideWithin(k, na - 1);
  }

  /** Samples advance strictly along the arc. */
  lemma SampleIncreasing(k: nat, m: nat, na: int)
    requires na >= 2 && k < m
    ensures SampleAt(k, na) < SampleAt(m, na)
  {
    DivideMonotone(k, m, na - 1);
  }

  /**
   * The parameter loop (constellationLines.cs:125-128): `t_k = k / (na - 1)`
   * for `k` in `0 .. na - 1`, filled into a fresh array, so both endpoints of
   * the arc are drawn.
   */
  method SampleParameters(na: int) returns (ts: seq<real>)
    requires na >= 2
    ensures |ts| == na
    ensures forall k :: 0 <= k < na ==> ts[k] == SampleAt(k, na)
    ensures ts[0] == 0.0 && ts[na - 1] == 1.0
  {
    var p := new real[na];
    var k := 0;
    while k < na
      invariant 0 <= k <= na
      invariant forall i :: 0 <= i < k ==> p[i] == SampleAt(i, na)
    {
      p[k] := k as real / (na - 1) as real;
      k := k + 1;
    }
    ts := p[..];
    SampleEnds(na);
  }

  lemma DivideWithin(i: nat, n: nat)
    requires 0 < n && i <= n
    ensures 0.0 <= i as real / n as real <= 1.0
  {
  }

  lemma DivideMonotone(i: nat, m: nat, n: nat)
    requires 0 < n && i < m
    ensures i as real / n as real < m as real / n as real
  {
  }

  /** One arc of a group as the renderer is set up for it. */
  datatype ArcPlan = ArcPlan(from: ArcPoint, to: ArcPoint, color: Color, width: real, parameters: seq<real>)

  /** `arc` joins `p` to `q` in `p`'s colour and width, sampled for their angle. */
  ghost predicate ArcFits(arc: ArcPlan, p: ArcPoint, q: ArcPoint, angle: (ArcPoint, ArcPoint) -> real, radius: real, resolution: real)
    requires resolution != 0.0
  {
    && arc.from == p && arc.to == q
    && arc.color == p.style.color
    && arc.width == p.style.width * radius
    && |arc.parameters| == ArcSampleCount(angle(p, q), resolution)
    && (forall k :: 0 <= k < |arc.parameters| ==> arc.parameters[k] == SampleAt(k, |arc.parameters|))
  }

  /**
   * The arc loop of `constellationLines.Start` for one group
   * (constellationLines.cs:116-135): one arc between each pair of consecutive
   * points, coloured and sized by its first point (width times the sphere
   * radius), sampled at the parameters of `ArcSampleCount`. `angle` is
   * `Vector3.Angle` between the two points' positions.
   */
  method PlanArcs(points: seq<ArcPoint>, angle: (ArcPoint, ArcPoint) -> real, radius: real, resolution: real)
    returns (arcs: seq<ArcPlan>)
    requires resolution != 0.0
    ensures |arcs| == if points == [] then 0 else |points| - 1
    ensures forall j :: 0 <= j < |arcs| ==> ArcFits(arcs[j], points[j], points[j + 1], angle, radius, resolution)
  {
    arcs := [];
    var n := |points|;
    var j := 0;
    while j < n - 1
      invariant 0 <= j <= if n == 0 then 0 else n - 1
      invariant |arcs| == j
      invariant forall i :: 0 <= i < j ==> ArcFits(arcs[i], points[i], points[i + 1], angle, radius, resolution)
    {
      var na := ArcSampleCount(angle(points[j], points[j + 1]), resolution);
      var ts := SampleParameters(na);
      arcs := arcs + [ArcPlan(points[j], points[j + 1], points[j].style.color, points[j].style.width * radius, ts)];
      j := j + 1;
    }
  }

  /** A group drawn in one style gives every one of its arcs that colour and width. */
  lemma GroupArcsShareStyle(points: seq<ArcPoint>, arcs: seq<ArcPlan>, angle: (ArcPoint, ArcPoint) -> real, radius: real, resolution: real)
    requires resolution != 0.0
    requires |arcs| == |points| - 1
    requires forall j :: 0 <= j < |arcs| ==> ArcFits(arcs[j], points[j], points[j + 1], angle, radius, resolution)
    requires forall m :: 0 <= m < |points| ==> points[m].style == points[0].style
    ensures forall j :: 0 <= j < |arcs| ==> arcs[j].color == points[0].style.color && arcs[j].width == points[0].style.width * radius
  {
    forall j | 0 <= j < |arcs|
      ensures arcs[j].color == points[0].style.color && arcs[j].width == points[0].style.width * radius
    {
      assert ArcFits(arcs[j], points[j], points[j + 1], angle, radius, resolution);
      assert points[j].style == points[0].style;
    }
  }

  /** Every arc is drawn from its start to its end through increasing parameters. */
  lemma ArcSamplesSpanArc(arc: ArcPlan, p: ArcPoint, q: ArcPoint, angle: (ArcPoint, ArcPoint) -> real, radius: real, resolution: real)
    requires resolution != 0.0
    requires ArcFits(arc, p, q, angle, radius, resolution)
    ensures |arc.parameters| >= 2
    ensures arc.parameters[0] == 0.0 && arc.parameters[|arc.parameters| - 1] == 1.0
    ensures forall k, m :: 0 <= k < m < |arc.parameters| ==> arc.parameters[k] < arc.parameters[m]
  {
    var na := |arc.parameters|;
    SampleEnds(na);
    forall k, m | 0 <= k < m < na
      ensures arc.parameters[k] < arc.parameters[m]
    {
      SampleIncreasing(k, m, na);
    }
  }
}
