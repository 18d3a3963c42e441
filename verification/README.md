# A verified model of the astronomia sky core

`astronomia` is a Unity virtual observatory. It draws the sky seen from a place and a moment:
- the Sun, the Moon and the planets, from low-precision orbital elements;
- the Bright Star Catalogue;
- the Sky & Telescope constellation lines;
- an equatorial coordinate grid;
- a time control that runs the clock faster or slower, or backwards.

This project models the non-graphical core of that program in Dafny and proves properties of it.

- **TimeSpeed** — the P and O keys of `celestialSphere.Update`. They walk the speed multiplier along a ladder of zero and the signed powers of two, up to `maxTimeSpeed`. The model has:
  - the two steps, as functions;
  - a `TimeControl` class whose fields they update in place.
- **Kepler** — the Newton iteration of `eccentricAnomaly`, as a method with its loop. Sine and cosine are parameters.
- **Ephemeris** — the day-linear orbital element tables of the Moon and the planets, the `Sun` record with its memberwise `Copy`, and the local sidereal time formula.
- **Constellations** — the constellation catalog:
  - the style lookup of `ArcSnT`;
  - the two loops of the `ConstellationsSnT` constructor, which group consecutive lines of one constellation into maximal runs and store each run under `name + j`;
  - the arc sampling of `constellationLines.Start`.
- **StarField** — the Bright Star Catalogue loader:
  - the fixed-column star parser with its right-ascension and declination conversions;
  - `loadBSC5Catalog`, which keeps the stars that have a position and compacts them into the front of an array;
  - the brightness keys M and N.
- **EquatorialGrid** — the layout computed by `equatorialGrid.Start`:
  - the number of points per circle;
  - the right-ascension rotations in C# integer arithmetic;
  - the declination circles.

Conventions shared by every module:
- Single-precision floats are modelled as reals.
- C# `int` division (truncating toward zero) is `Arith.TruncDiv`.
- `Mathf.RoundToInt` and `Math.Round` (both round half to even) are `Arith.RoundHalfEven`.
- `Mathf.PI` is the exact value of the nearest single-precision float.
- A thrown exception is a `Failure` value of `Results.Result`.
- Text files are sequences of lines.
- `float.Parse` is a parameter (`string -> Option<real>`).

## Model

| member | source | states |
|---|---|---|
| TimeSpeed.SpeedUp | Assets/celestialSphere.cs:461-469 | P strictly raises a speed below the maximum and leaves a speed at or above it unchanged |
| TimeSpeed.SlowDown | Assets/celestialSphere.cs:470-478 | O strictly lowers a speed above `-maxTimeSpeed` and leaves a speed at or below it unchanged |
| TimeSpeed.SlowDownMirrorsSpeedUp | Assets/celestialSphere.cs:461-478 | O is P conjugated by negation: `SlowDown(x) == -SpeedUp(-x)` |
| TimeSpeed.LadderClosed | Assets/celestialSphere.cs:461-478 | with a power-of-two maximum, both keys map a rung of the ladder (0, ±1, ±2, ±4, … ±max) to a rung |
| TimeSpeed.LadderClosedUp | Assets/celestialSphere.cs:461-469 | P keeps the speed on the ladder |
| TimeSpeed.LadderClosedDown | Assets/celestialSphere.cs:470-478 | O keeps the speed on the ladder |
| TimeSpeed.OnLadderNegate | Assets/celestialSphere.cs:461-478 | the ladder is symmetric about zero |
| TimeSpeed.PowerOfTwoGap | Assets/celestialSphere.cs:467 | between two distinct powers of two there is room for a doubling, so `timeSpeed *= 2` never jumps over the maximum |
| TimeSpeed.HalveEven | Assets/celestialSphere.cs:465 | on an even negative speed C#'s truncating `/= 2` is exact halving |
| TimeSpeed.SpeedUpThenSlowDown | Assets/celestialSphere.cs:461-478 | on the ladder, O undoes a P press that the maximum did not block |
| TimeSpeed.SlowDownThenSpeedUp | Assets/celestialSphere.cs:461-478 | on the ladder, P undoes an O press that the minimum did not block |
| TimeSpeed.ReachableOnLadder | Assets/celestialSphere.cs:461-478 | after any sequence of presses the speed is still on the ladder, so its magnitude never exceeds the maximum |
| TimeSpeed.DefaultMaximumIsPowerOfTwo | Assets/celestialSphere.cs:362 | the default maximum 4096 is a power of two, so the ladder results apply to it |
| TimeSpeed.TimeControl.constructor | Assets/celestialSphere.cs:361-362 | the initial speed is 1 and the maximum 4096, and the state is on the ladder |
| TimeSpeed.TimeControl.PressP | Assets/celestialSphere.cs:461-469 | the new speed is `SpeedUp` of the old one; a valid state stays valid |
| TimeSpeed.TimeControl.PressO | Assets/celestialSphere.cs:470-478 | the new speed is `SlowDown` of the old one; a valid state stays valid |
| TimeSpeed.TimeControl.Update | Assets/celestialSphere.cs:461-478 | one frame tests P and O independently: with both keys down `SlowDown` applies to the result of `SpeedUp`, which is `Run` over the pressed keys in order; a valid state stays valid |
| Kepler.NewtonDenominatorPositive | Assets/celestialSphere.cs:79 | for an elliptical orbit the Newton denominator `1 - e cos E` is at least `1 - e > 0` |
| Kepler.NewtonStep | Assets/celestialSphere.cs:79 | a Newton step leaves `E` in place exactly when `E` solves Kepler's equation `E - e sin E = M` |
| Kepler.QuotientZero | Assets/celestialSphere.cs:79 | the Newton correction is zero exactly when the residual is zero |
| Kepler.EccentricAnomaly | Assets/celestialSphere.cs:71-84 | at most 100 and at least one step; the result is the estimate after that many Newton steps from the one-step first estimate; the loop stops early only once a step moves the estimate by at most `1e-5`, and every earlier step moved it by more |
| Kepler.StationaryEstimateSolves | Assets/celestialSphere.cs:76-81 | an estimate the iteration can no longer move solves Kepler's equation exactly |
| Ephemeris.ElementsAsWritten | Assets/celestialSphere.cs:125-341 | the written tables give every body a positive semi-major axis, an eccentricity in [0, 1) at the epoch and a mean anomaly that increases with the day |
| Ephemeris.CopiedElementsAsWritten | Assets/celestialSphere.cs:204-228 | as written, Mars has Venus's semi-major axis and eccentricity |
| Ephemeris.AsWrittenAxesTie | Assets/celestialSphere.cs:223-279 | as written, Venus and Mars share a semi-major axis (Mars inside Earth's orbit), and so do Jupiter and Saturn |
| Ephemeris.Elements | Assets/celestialSphere.cs:125-341 | the corrected tables agree with the written ones everywhere except Mars's and Saturn's `a` and `e`, and on all node, inclination, perihelion and mean-anomaly entries |
| Ephemeris.SemiMajorAxesGrowOutward | Assets/celestialSphere.cs:185-341 | in the corrected tables the semi-major axes at the epoch grow outward from Mercury to Neptune, with Earth's 1 AU between Venus and Mars |
| Ephemeris.EccentricityElliptical | Assets/celestialSphere.cs:185-341 | within a million days of the epoch every eccentricity in the corrected tables is in [0, 1), as the Kepler solver requires |
| Ephemeris.Sun.constructor | Assets/celestialSphere.cs:27-48 | `w`, `M` and `ecl` are the day-linear elements at `day`; the trigonometric fields are taken as given |
| Ephemeris.Sun.Copy | Assets/celestialSphere.cs:49-52 | the copy is a fresh object, never an alias, with every field equal to the original's |
| Ephemeris.Sun.AsEarth | Assets/celestialSphere.cs:162-164 | the Earth-centred copy has a zero offset and the original's other fields, and the original keeps its offset |
| Ephemeris.HourOfDay | Assets/celestialSphere.cs:389 | the UTC clock time as an hour is in [0, 24) and within the current hour |
| Ephemeris.LocalSiderealTime | Assets/celestialSphere.cs:381-391 | the value is 54.59916 hours plus 0.985647352/15 hours per day plus the UTC clock hour plus the longitude over 15; it is not reduced modulo 24 |
| Ephemeris.SiderealTimeAtEpoch | Assets/celestialSphere.cs:381-391 | at the epoch, at midnight UTC on the Greenwich meridian, the value is 54.59916 hours; it is never reduced modulo 24 |
| Ephemeris.SiderealTimeDailyGain | Assets/celestialSphere.cs:386-390 | from one day to the next, at the same clock time, the value grows by the Sun's daily mean motion divided by 15 |
| Ephemeris.SiderealTimeLongitude | Assets/celestialSphere.cs:390 | 15 degrees of longitude east add one hour |
| Constellations.StyleOf | Assets/constellationLines.cs:22-35 | codes 1 to 4 have a style (blue 0.006, red 0.004, yellow 0.002 for both 3 and 4); any other code is the missing-key error |
| Constellations.StylesDistinct | Assets/constellationLines.cs:22-35 | a lower code never gives a thinner line; codes 1, 2 and 3 differ in both width and colour |
| Constellations.ParseArc | Assets/constellationLines.cs:38-49 | a line parses exactly when both coordinate fields (columns 6-13 and 15-22) parse and column 28 holds 1 to 4; RA is the hour value times `ToRad` times 15, Dec the degree value times `ToRad`, and the style is that code's |
| Constellations.ParseAll | Assets/constellationLines.cs:91-94 | the lines of a group parse together exactly when each parses, into one point per line in order |
| Constellations.RunsAreMaximal | Assets/constellationLines.cs:64-80 | the runs of the data lines concatenate back to the lines; none is empty, each has one name, and neighbouring runs have different names |
| Constellations.PushKeepsRuns | Assets/constellationLines.cs:68-78 | reading one more line keeps the runs maximal and appends the line to their concatenation |
| Constellations.PushOtherName | Assets/constellationLines.cs:68-78 | a line changes no run of any other name |
| Constellations.PushOpens | Assets/constellationLines.cs:72-76 | a line after a line of another name opens a new run of its own name |
| Constellations.PushExtends | Assets/constellationLines.cs:75-76 | a line after a line of the same name extends that name's last run |
| Constellations.RunsNamedNonEmpty | Assets/constellationLines.cs:68-78 | a name has groups exactly when some run has that name |
| Constellations.GroupTextOpen | Assets/constellationLines.cs:74-76 | a new run of an already stored name is appended to its text after a '\|' |
| Constellations.GroupTextExtend | Assets/constellationLines.cs:75-76 | a continuing line is appended to its name's text after a ',' |
| Constellations.TracksFirst | Assets/constellationLines.cs:72 | storing the first line of a name keeps the dictionary equal to the group texts of the lines read |
| Constellations.TracksOpen | Assets/constellationLines.cs:73-76 | the '\|' append keeps the dictionary equal to the group texts |
| Constellations.TracksExtend | Assets/constellationLines.cs:75-76 | the ',' append keeps the dictionary equal to the group texts |
| Constellations.AddLine | Assets/constellationLines.cs:68-78 | after one data line, `dictS` and `earlierName` describe the runs with that line pushed |
| Constellations.ReadLine | Assets/constellationLines.cs:66-79 | one line of the file (a comment or a data line) keeps the loop invariant |
| Constellations.CollectRuns | Assets/constellationLines.cs:64-80 | fails exactly when a line is empty, or is a data line shorter than 32 characters; otherwise a name is stored exactly when it has groups, and its value is its groups, lines joined by ',' and groups by '\|' |
| Constellations.KeyInjective | Assets/constellationLines.cs:95 | for four-character names, `name + j` keys are distinct for distinct (name, j) |
| Constellations.ParseGroup | Assets/constellationLines.cs:88-94 | the points array of one group is filled exactly when every line parses, and it holds the parsed lines in order |
| Constellations.ExpandName | Assets/constellationLines.cs:83-96 | one name's text succeeds exactly when all its groups parse, and group `j` is then stored under `name + j`, with no key clobbered |
| Constellations.ExpandRuns | Assets/constellationLines.cs:81-97 | succeeds exactly when every stored text parses, and the result holds exactly the keys `name + j` with their parsed groups |
| Constellations.GroupTextDecodes | Assets/constellationLines.cs:72-88 | splitting a name's text at '\|' and then ',' gives back its groups line for line: the join of the first loop and the split of the second are inverse |
| Constellations.GroupTextParses | Assets/constellationLines.cs:83-95 | a name's text parses exactly when every line of its groups does, into the groups' points |
| Constellations.AllParseIff | Assets/constellationLines.cs:81-97 | the second loop succeeds exactly when every data line of the file parses |
| Constellations.CatalogFromExpanded | Assets/constellationLines.cs:60-99 | the expanded dictionary is the file's catalog: group `j` of each name under `name + j`, parsed, and nothing else |
| Constellations.BuildCatalog | Assets/constellationLines.cs:60-99 | the constructor fails exactly when a line cannot be read or a data line does not parse; otherwise the dictionary is the file's catalog, with every coordinate read by the given `float.Parse` |
| Constellations.GroupLineInFile | Assets/constellationLines.cs:64-80 | the lines of a group are data lines of the file |
| Constellations.DataLineInGroup | Assets/constellationLines.cs:64-80 | every data line of the file is in some group of its name |
| Constellations.GroupsPartitionLines | Assets/constellationLines.cs:64-80 | a name's groups, concatenated in key order, are that name's data lines in file order; each group is non-empty and of that name only |
| Constellations.FlattenRunsNamed | Assets/constellationLines.cs:64-80 | the runs of a name concatenate to that name's lines |
| Constellations.GroupsAreMaximalRuns | Assets/constellationLines.cs:64-80 | the groups of the whole file are its maximal same-name runs of data lines |
| Constellations.CommentsTransparent | Assets/constellationLines.cs:69 | comment lines inserted anywhere change no group and do not break a run |
| Constellations.SameNameSameStyle | Assets/constellationLines.cs:46-48 | lines of one name share their style code: a line of that name whose coordinates parse reads the same width and colour as one that parsed |
| Constellations.GroupSharesStyle | Assets/constellationLines.cs:46-48 | all points of a parsed group have the style of its first point |
| Constellations.ArcSampleCountAsWritten | Assets/constellationLines.cs:122-123 | the sample count as written is at least 2, and is the rounded over-converted angle plus one |
| Constellations.ArcSampleCountOverConverts | Assets/constellationLines.cs:122-123 | as written, a 10° arc at 5° resolution gets 116 samples; corrected, it gets 3 |
| Constellations.ArcSampleCount | Assets/constellationLines.cs:123 | at least 2 samples, and the number of intervals is the angle over the resolution rounded, so samples are about one resolution apart |
| Constellations.SampleEnds | Assets/constellationLines.cs:125-128 | the first parameter is 0 and the last is 1, so both endpoints are drawn |
| Constellations.SampleSpacing | Assets/constellationLines.cs:127 | consecutive parameters are `1 / (na - 1)` apart |
| Constellations.SampleWithin | Assets/constellationLines.cs:127 | every parameter is in [0, 1] |
| Constellations.SampleIncreasing | Assets/constellationLines.cs:127 | the parameters increase strictly |
| Constellations.SampleParameters | Assets/constellationLines.cs:124-129 | `na` parameters `k / (na - 1)`, from 0 to 1 |
| Constellations.PlanArcs | Assets/constellationLines.cs:116-135 | one arc per pair of consecutive points, in the first point's colour and with its width times the radius, sampled from 0 to 1 |
| Constellations.GroupArcsShareStyle | Assets/constellationLines.cs:132-134 | a group in one style gives all its arcs that colour and width |
| Constellations.ArcSamplesSpanArc | Assets/constellationLines.cs:122-129 | every arc has at least two samples, runs from 0 to 1, and its parameters increase strictly |
| StarField.RaInRange | Assets/starField.cs:33-40 | a right ascension below 24h is in [0, 2π) radians |
| StarField.RaHourIsFifteenDegrees | Assets/starField.cs:39 | one hour of right ascension is 15 degrees |
| StarField.RaToRad | Assets/starField.cs:33-40 | succeeds exactly when the hour, minute and second fields (columns 0-1, 2-3, 4-7) parse, and is their angle in radians |
| StarField.DecInRange | Assets/starField.cs:41-49 | north declinations give polar distance `90 - dec` degrees and south ones `90 + dec`, both in [0, π] |
| StarField.DecHemispheresMirror | Assets/starField.cs:47-48 | the same declination north and south gives polar distances that sum to π |
| StarField.DecToRad | Assets/starField.cs:41-49 | succeeds exactly when the sign (with "1" appended), degree, minute and second fields parse, and is the polar distance they give |
| StarField.ParseStar | Assets/starField.cs:24-32 | a line shorter than 106 characters throws; otherwise a star is read exactly when RA, Dec and magnitude parse, with name, HD and SAO from columns 5-13, 25-30 and 31-36 |
| StarField.ListedExactly | Assets/starField.cs:69 | the listed lines are exactly the lines with a non-blank position mark, and there are `CountListed` of them |
| StarField.ParseStars | Assets/starField.cs:67-72 | a successful parse of the listed lines holds one star per line |
| StarField.ParseStarsEach | Assets/starField.cs:67-72 | the listed lines parse together exactly when each parses, into one star per line in order |
| StarField.LoadListed | Assets/starField.cs:69-70 | a listed line adds its star after those read so far |
| StarField.LoadSkipped | Assets/starField.cs:69 | a line without a position adds nothing |
| StarField.LoadedAll | Assets/starField.cs:67-74 | once every line is read, the stars are those of the listed lines, one per listed line |
| StarField.LoadCatalog | Assets/starField.cs:61-76 | succeeds exactly when every line is readable and every listed line parses; the stars are then the listed lines parsed, in file order, compacted to their count |
| StarField.Brighten | Assets/starField.cs:108-116 | M adds `db` but never goes past the maximum |
| StarField.Dim | Assets/starField.cs:117-125 | N subtracts `db` but never goes below zero |
| StarField.BrightnessStaysInRange | Assets/starField.cs:108-125 | from a level in [0, max], M never lowers it and N never raises it, and both stay in range |
| StarField.BrightenDimInverse | Assets/starField.cs:108-125 | N undoes an M press that did not hit the maximum, and M undoes an N press that did not hit zero |
| StarField.PressesStayInRange | Assets/starField.cs:108-125 | any sequence of presses keeps the level in [0, max] |
| StarField.StarBrightness.constructor | Assets/starField.cs:57-59 | brightness 100, step 2, maximum 200 |
| StarField.StarBrightness.PressM | Assets/starField.cs:108-116 | the new level is `Brighten` of the old one and is no lower; a valid state stays valid |
| StarField.StarBrightness.PressN | Assets/starField.cs:117-125 | the new level is `Dim` of the old one and is no higher; a valid state stays valid |
| StarField.StarBrightness.Update | Assets/starField.cs:108-125 | one frame applies M, then N, to the level |
| Arith.TruncDiv | Assets/equatorialGrid.cs:40 | C#'s integer quotient: the remainder is smaller than the divisor in magnitude and has the dividend's sign |
| Arith.TruncDivNegate | Assets/celestialSphere.cs:465 | truncating division is odd in its dividend |
| Arith.RoundHalfEven | Assets/equatorialGrid.cs:27 | the result is within 1/2 of its argument, and is even on a tie |
| Arith.RoundHalfEvenUnique | Assets/equatorialGrid.cs:27 | those two conditions determine the rounding uniquely |
| Strings.Split | Assets/constellationLines.cs:84-88 | `String.Split(char)` gives one more piece than the string has separators, and no piece contains the separator |
| Strings.JoinSplit | Assets/constellationLines.cs:84-88 | joining the pieces of a split gives back the string |
| Strings.SplitJoin | Assets/constellationLines.cs:76-88 | splitting a join of separator-free parts gives back the parts |
| Strings.NatToStringInjective | Assets/constellationLines.cs:95 | different naturals print differently |
| EquatorialGrid.CircleSegments | Assets/equatorialGrid.cs:27 | the point count is `360 / resolution` rounded to the nearest integer |
| EquatorialGrid.DefaultCircleSegments | Assets/celestialSphere.cs:18 | at the default 5° resolution a circle has 72 points |
| EquatorialGrid.CircleParametersOrdered | Assets/equatorialGrid.cs:29-34 | the parameters of a circle increase strictly within [0, 2π), so no point repeats |
| EquatorialGrid.CircleParameters | Assets/equatorialGrid.cs:29-34 | `n` parameters `i·2π/n`, strictly increasing within [0, 2π) |
| EquatorialGrid.RaAngleBounds | Assets/equatorialGrid.cs:40 | the rotation of circle `i` is `i·180/raDivisions` truncated, in [0, 180) |
| EquatorialGrid.RaAngleMonotone | Assets/equatorialGrid.cs:38-44 | the rotations never decrease with `i` |
| EquatorialGrid.DefaultRaAngles | Assets/equatorialGrid.cs:14-15 | with the default 11 divisions the rotations are 16, 32, 49, … 163 degrees, each strictly below the exact value |
| EquatorialGrid.TruncDivUnique | Assets/equatorialGrid.cs:40 | a non-negative quotient is determined by its remainder |
| EquatorialGrid.RaAngles | Assets/equatorialGrid.cs:38-44 | `raDivisions - 1` rotations (none if at most 1), each `RaAngle(i)` in [0, 180) and non-decreasing |
| EquatorialGrid.DecPolarAnglesOrdered | Assets/equatorialGrid.cs:47-62 | the declination circles lie strictly between the poles and move south with `i` |
| EquatorialGrid.DecCircles | Assets/equatorialGrid.cs:47-62 | `decDivisions - 1` circles, each at `DecPolarAngle(i)` strictly inside (0, π), each with the parameters of a full circle |
| EquatorialGrid.Layout | Assets/equatorialGrid.cs:27-62 | fails exactly when the rounded point count is negative; otherwise it gives the base circle of `i·2π/n` points, strictly increasing within [0, 2π), the RA rotations and the Dec circles, every circle with the same points |

## Left out

- Trigonometry and vector geometry are not modelled. This covers `Mathf.Sin`, `Cos`, `Atan2` and `Sqrt`, the ecliptic-to-equatorial conversions, `Vector3.Angle` and `Slerp`. The Kepler solver takes sine and cosine as parameters. The arc planner takes the angle between two points as a parameter. The Sun's `xs`, `ys`, `ra` and `dec` are given.
- Rendering and scene code are not modelled. This covers particle systems, line renderers, game objects, materials, `OnGUI`, the Sun light and planet spheres, and `cameraMovement.cs`. Such code has no state the core reads back.
- `DateTime`, time zones and the `Update` throttle (celestialSphere.cs:445-458) are left out. They depend on the wall clock. The sidereal time takes the day count and the UTC clock time as inputs instead.
- File access (`File.ReadAllLines`, `StreamReader`) is left out. Files are sequences of lines.
- `float.Parse` is a parameter of the star parser and of the constellation line parser. Its culture-dependent behaviour is not modelled.
- Single-precision rounding is not modelled. Every float computation is exact real arithmetic.
- 32-bit wrap-around of `timeSpeed` is not modelled. The proved ladder bound keeps the speed within ±`maxTimeSpeed` anyway whenever the maximum is a power of two.
- When several errors could occur, the model does not reproduce which exception the source throws first. It reports one error; only success versus failure is modelled exactly.
- The dictionary `foreach` of `ConstellationsSnT` visits names in an order the model leaves unspecified. The result does not depend on it.
- The unused `raS.Split(' ')` (starField.cs:35) has no effect and is omitted.
- The star magnitude's `startSize` scaling and the particle colours set from it are not modelled. The same goes for `Exp` and the rest of `starField.Start`.
- `Constellations.BuildCatalog`: the model requires `NoSeparators`, i.e. that data lines contain no ',' or '|'. The source's join and split would mangle such a line, and the real catalog has none.
- `Constellations.PlanArcs`: uses the corrected `ArcSampleCount`, not the count as written; see Findings.
- `EquatorialGrid.Layout`, `EquatorialGrid.CircleSegments`, `Constellations.ArcSampleCountAsWritten`, `Constellations.ArcSampleCount`, `Constellations.PlanArcs`: require a non-zero resolution (equatorialGrid.cs:27, constellationLines.cs:123). In C#, dividing by `0f` gives infinity (NaN for `0 / 0f`), and rounding either to an int is unspecified.
- `Kepler.EccentricAnomaly`: requires `0 <= e < 1` and a cosine bounded by 1, which is what the source's callers pass. The model says nothing about a hyperbolic orbit.
- `TimeSpeed.LadderClosed`, `TimeSpeed.ReachableOnLadder`: require a power-of-two maximum. With any other maximum, doubling can overshoot it once.

## Findings

| source | as written | input that shows it | evidently intended | confidence | as-written member | corrected member |
|---|---|---|---|---|---|---|
| Assets/celestialSphere.cs:223-228, 274-279 | Mars's `a` and `e` are Venus's (0.72333, 0.006773); Saturn's are Jupiter's (5.20256, 0.048498) | the tables themselves: Mars at 0.72333 AU lies inside Earth's orbit, and Saturn coincides with Jupiter | Mars a = 1.523688, e = 0.093405 + 2.516e-9·d; Saturn a = 9.55475, e = 0.055546 − 9.499e-9·d, from the same low-precision theory | high, not executed | Ephemeris.AsWrittenAxesTie | Ephemeris.SemiMajorAxesGrowOutward |
| Assets/constellationLines.cs:122-123 | `Vector3.Angle` already returns degrees, but the count multiplies by 180/π again before dividing by the resolution | a 10° arc at 5° resolution gets 116 samples instead of 3 | `max(1, round(angle / resolution)) + 1` | high, not executed | Constellations.ArcSampleCountOverConverts | Constellations.ArcSampleCount |
