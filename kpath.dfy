/**
 * A path through reciprocal space: consecutive segments between named
 * high-symmetry points, each sampled by a number of grid points.
 * Models pyprocar/core/kpath.py.
 */
module KPaths {
  import opened Common

  /** The two names of one segment: its start point and its end point. */
  type NamePair = (string, string)

  /** The two special k-points of one segment. */
  type PointPair = (Vec, Vec)

  datatype KPath = KPath(
    knames: seq<NamePair>,
    specialKpoints: seq<PointPair>,
    ngrids: seq<int>,
    hasTimeReversal: bool)

  /** Some name of some segment already contains a `$`. */
  predicate HasDollar(knames: seq<NamePair>)
  {
    exists i :: 0 <= i < |knames| && ('$' in knames[i].0 || '$' in knames[i].1)
  }

  /**
   * The names the constructor stores: every name wrapped in `$...$` for LaTeX,
   * unless some name already contains a `$`, in which case all are kept verbatim.
   */
  function WrapNames(knames: seq<NamePair>): (r: seq<NamePair>)
    ensures |r| == |knames|
    ensures HasDollar(knames) ==> r == knames
    ensures !HasDollar(knames) ==> forall i :: 0 <= i < |knames| ==>
      r[i] == ("$" + knames[i].0 + "$", "$" + knames[i].1 + "$")
  {
    var latex := if HasDollar(knames) then "" else "$";
    assert latex == "" ==> forall n: string :: latex + n + latex == n;
    seq(|knames|, i requires 0 <= i < |knames| => (latex + knames[i].0 + latex, latex + knames[i].1 + latex))
  }

  /** Names as a constructed KPath holds them: wrapping them again changes nothing. */
  predicate Wrapped(knames: seq<NamePair>)
  {
    knames == [] || HasDollar(knames)
  }

  /** Wrapping always yields wrapped names, so wrapping twice is wrapping once. */
  lemma WrapNamesIdempotent(knames: seq<NamePair>)
    ensures Wrapped(WrapNames(knames))
    ensures WrapNames(WrapNames(knames)) == WrapNames(knames)
  {
    var r := WrapNames(knames);
    if !HasDollar(knames) && knames != [] {
      assert '$' in r[0].0;
    }
  }

  /** Stripping `$` from a wrapped name recovers the name stripped of `$`. */
  lemma UnwrapName(n: string, wrapped: bool)
    ensures RemoveChar((if wrapped then "$" else "") + n + (if wrapped then "$" else ""), '$')
         == RemoveChar(n, '$')
  {
    var l := if wrapped then "$" else "";
    RemoveCharConcat(l + n, l, '$');
    RemoveCharConcat(l, n, '$');
  }

  /**
   * The KPath constructor. The number of segments (`nsegments`) is the number
   * of name pairs; the names come out wrapped, and stripping `$` from them
   * gives the given names stripped of `$`.
   */
  function MakeKPath(knames: seq<NamePair>, specialKpoints: seq<PointPair>, ngrids: seq<int>,
                     hasTimeReversal: bool): (kp: KPath)
    ensures NSegments(kp) == |knames|
    ensures kp.knames == WrapNames(knames) && Wrapped(kp.knames)
    ensures forall i :: 0 <= i < |knames| ==>
      RemoveChar(kp.knames[i].0, '$') == RemoveChar(knames[i].0, '$') &&
      RemoveChar(kp.knames[i].1, '$') == RemoveChar(knames[i].1, '$')
    ensures kp.specialKpoints == specialKpoints && kp.ngrids == ngrids
    ensures kp.hasTimeReversal == hasTimeReversal
  {
    WrapNamesIdempotent(knames);
    var names := WrapNames(knames);
    assert forall i :: 0 <= i < |knames| ==>
      RemoveChar(names[i].0, '$') == RemoveChar(knames[i].0, '$') &&
      RemoveChar(names[i].1, '$') == RemoveChar(knames[i].1, '$') by {
      forall i | 0 <= i < |knames|
        ensures RemoveChar(names[i].0, '$') == RemoveChar(knames[i].0, '$')
        ensures RemoveChar(names[i].1, '$') == RemoveChar(knames[i].1, '$')
      {
        UnwrapName(knames[i].0, !HasDollar(knames));
        UnwrapName(knames[i].1, !HasDollar(knames));
      }
    }
    KPath(names, specialKpoints, ngrids, hasTimeReversal)
  }

  /** Rebuilding a KPath from the names of a constructed one keeps the names. */
  lemma RebuildKeepsNames(kp: KPath, specialKpoints: seq<PointPair>, ngrids: seq<int>, htr: bool)
    requires Wrapped(kp.knames)
    ensures MakeKPath(kp.knames, specialKpoints, ngrids, htr).knames == kp.knames
  {
  }

  /** `nsegments`: one segment per name pair. */
  function NSegments(kp: KPath): nat
  {
    |kp.knames|
  }

  // ---------------------------------------------------------------------------
  // Tick positions

  /**
   * Position of tick i: 0 for the first, and the index of the last grid point
   * of segment i-1 (counting every segment's points) for the others.
   */
  function TickPosition(ngrids: seq<int>, i: nat): int
    requires i <= |ngrids|
  {
    if i == 0 then 0 else Sum(ngrids[..i]) - 1
  }

  /** `tick_positions`: a running position advanced by each segment's grid count. */
  method TickPositions(kp: KPath) returns (ticks: seq<int>)
    requires |kp.ngrids| >= NSegments(kp)
    ensures |ticks| == NSegments(kp) + 1
    ensures forall i :: 0 <= i < |ticks| ==> ticks[i] == TickPosition(kp.ngrids, i)
  {
    var pos := 0;
    ticks := [pos];
    for isegment := 0 to NSegments(kp)
      invariant |ticks| == isegment + 1
      invariant pos == Sum(kp.ngrids[..isegment])
      invariant forall i :: 0 <= i < |ticks| ==> ticks[i] == TickPosition(kp.ngrids, i)
    {
      SumPrefixStep(kp.ngrids, isegment);
      pos := pos + kp.ngrids[isegment];
      ticks := ticks + [pos - 1];
    }
  }

  /**
   * When every segment has at least one grid point, tick positions never
   * decrease and lie in 0 .. (total grid points - 1).
   */
  lemma {:induction false} TickPositionsMonotone(ngrids: seq<int>, n: nat, i: nat, j: nat)
    requires 1 <= n <= |ngrids| && i <= j <= n
    requires forall k :: 0 <= k < n ==> ngrids[k] >= 1
    ensures 0 <= TickPosition(ngrids, i) <= TickPosition(ngrids, j) <= Sum(ngrids[..n]) - 1
  {
    var g := ngrids[..n];
    assert forall k :: 0 <= k <= n ==> g[..k] == ngrids[..k];
    assert forall k :: 0 <= k < |g| ==> g[k] >= 0;
    SumPrefixStep(g, 0);
    assert g[..0] == [];
    SumPrefixMonotone(g, 1, n);
    if 0 < i {
      SumPrefixMonotone(g, 1, i);
      SumPrefixMonotone(g, i, j);
    } else if 0 < j {
      SumPrefixMonotone(g, 1, j);
    }
    if 0 < j {
      SumPrefixMonotone(g, j, n);
    }
    assert g[..n] == g;
  }

  // ---------------------------------------------------------------------------
  // Tick names

  /** The label at a segment boundary: `prevEnd|start` where the path jumps, else `prevEnd`. */
  function BoundaryLabel(prevEnd: string, start: string): string
  {
    if start != prevEnd then prevEnd + "|" + start else prevEnd
  }

  /**
   * The tick labels of a path with at least one segment: the first start name,
   * one boundary label between consecutive segments, and the last end name.
   */
  function TickNameAt(knames: seq<NamePair>, i: nat): string
    requires 1 <= |knames| && i <= |knames|
  {
    if i == 0 then knames[0].0
    else if i == |knames| then knames[i - 1].1
    else BoundaryLabel(knames[i - 1].1, knames[i].0)
  }

  /**
   * `tick_names`: starts from the first segment's two names, then for each
   * further segment appends `|start` to the last label when the path jumps and
   * appends the segment's end name.
   */
  method TickNames(kp: KPath) returns (names: seq<string>)
    requires NSegments(kp) >= 1
    ensures |names| == NSegments(kp) + 1
    ensures forall i :: 0 <= i < |names| ==> names[i] == TickNameAt(kp.knames, i)
  {
    var k := kp.knames;
    names := [k[0].0, k[0].1];
    if |k| == 1 {
      return;
    }
    for isegment := 1 to NSegments(kp)
      invariant |names| == isegment + 1
      invariant names[isegment] == k[isegment - 1].1
      invariant forall i :: 0 <= i < isegment ==> names[i] == TickNameAt(k, i)
    {
      if k[isegment].0 != k[isegment - 1].1 {
        names := names[..isegment] + [names[isegment] + "|" + k[isegment].0];
      }
      names := names + [k[isegment].1];
    }
  }

  /** A path whose every segment starts where the previous one ended is labelled by its points in order. */
  lemma ContinuousPathTickNames(knames: seq<NamePair>)
    requires 1 <= |knames|
    requires forall j :: 1 <= j < |knames| ==> knames[j].0 == knames[j - 1].1
    ensures forall i :: 0 <= i < |knames| ==> TickNameAt(knames, i) == knames[i].0
    ensures TickNameAt(knames, |knames|) == knames[|knames| - 1].1
  {
  }

  /** At a jump in the path the boundary label carries both names around a `|`. */
  lemma JumpLabelSplits(knames: seq<NamePair>, i: nat)
    requires 1 <= i < |knames| && knames[i].0 != knames[i - 1].1
    ensures TickNameAt(knames, i)[..|knames[i - 1].1|] == knames[i - 1].1
    ensures TickNameAt(knames, i)[|knames[i - 1].1|] == '|'
    ensures TickNameAt(knames, i)[|knames[i - 1].1| + 1..] == knames[i].0
  {
  }

  // ---------------------------------------------------------------------------
  // Transformation

  /** Every special point is a vector that numpy can multiply by m. */
  predicate PointsFit(specialKpoints: seq<PointPair>, m: Matrix)
  {
    |m| > 0 && Rectangular(m, |m[0]|) &&
    forall i :: 0 <= i < |specialKpoints| ==> |specialKpoints[i].0| == |m| && |specialKpoints[i].1| == |m|
  }

  /** `np.dot(special_kpoints, m)`: each point p of each segment becomes p·m. */
  function TransformPoints(specialKpoints: seq<PointPair>, m: Matrix): (r: seq<PointPair>)
    requires PointsFit(specialKpoints, m)
    ensures |r| == |specialKpoints|
    ensures forall i :: 0 <= i < |r| ==>
      r[i] == (VecMat(specialKpoints[i].0, m), VecMat(specialKpoints[i].1, m))
  {
    seq(|specialKpoints|, i requires 0 <= i < |specialKpoints| =>
      (VecMat(specialKpoints[i].0, m), VecMat(specialKpoints[i].1, m)))
  }

  /**
   * `get_kpoints_transformed` as written: a new KPath with the same names and
   * grids and every special point multiplied by m. The time-reversal flag is
   * not passed on, so the new path takes the constructor's default `true`.
   */
  function KpointsTransformed(kp: KPath, m: Matrix): (r: KPath)
    requires Wrapped(kp.knames) && PointsFit(kp.specialKpoints, m)
    ensures r.knames == kp.knames && r.ngrids == kp.ngrids
    ensures |r.specialKpoints| == |kp.specialKpoints|
    ensures forall i :: 0 <= i < |r.specialKpoints| ==>
      r.specialKpoints[i] == (VecMat(kp.specialKpoints[i].0, m), VecMat(kp.specialKpoints[i].1, m))
    ensures r.hasTimeReversal
  {
    MakeKPath(kp.knames, TransformPoints(kp.specialKpoints, m), kp.ngrids, true)
  }

  /** The time-reversal flag is lost: transforming by the identity does not give back a path without time reversal. */
  lemma TransformDropsTimeReversal(kp: KPath)
    requires Wrapped(kp.knames) && !kp.hasTimeReversal
    requires PointsFit(kp.specialKpoints, Identity(3))
    ensures KpointsTransformed(kp, Identity(3)) != kp
  {
  }

  /** `get_kpoints_transformed` as evidently intended: the time-reversal flag is carried over. */
  function KpointsTransformedKeepingSymmetry(kp: KPath, m: Matrix): (r: KPath)
    requires Wrapped(kp.knames) && PointsFit(kp.specialKpoints, m)
    ensures r.knames == kp.knames && r.ngrids == kp.ngrids
    ensures r.hasTimeReversal == kp.hasTimeReversal
    ensures r.specialKpoints == TransformPoints(kp.specialKpoints, m)
  {
    MakeKPath(kp.knames, TransformPoints(kp.specialKpoints, m), kp.ngrids, kp.hasTimeReversal)
  }

  /** With the flag carried over, transforming by the identity gives back the same path. */
  lemma TransformIdentity(kp: KPath, n: nat)
    requires Wrapped(kp.knames) && n > 0 && PointsFit(kp.specialKpoints, Identity(n))
    ensures KpointsTransformedKeepingSymmetry(kp, Identity(n)) == kp
  {
    var r := KpointsTransformedKeepingSymmetry(kp, Identity(n));
    forall i | 0 <= i < |kp.specialKpoints| ensures r.specialKpoints[i] == kp.specialKpoints[i] {
      VecMatIdentity(kp.specialKpoints[i].0);
      VecMatIdentity(kp.specialKpoints[i].1);
    }
  }

  // ---------------------------------------------------------------------------
  // KPOINTS file (VASP line mode)

  /** The grid line: one number when all grids are equal, otherwise all of them separated by three spaces. */
  function GridLine(ngrids: seq<int>): (line: string)
    ensures |ngrids| > 0 && (forall i :: 0 <= i < |ngrids| ==> ngrids[i] == ngrids[0]) ==>
      line == IntToString(ngrids[0])
  {
    if |ngrids| > 0 && forall i :: 0 <= i < |ngrids| ==> ngrids[i] == ngrids[0] then
      IntToString(ngrids[0])
    else
      Join(seq(|ngrids|, i requires 0 <= i < |ngrids| => IntToString(ngrids[i])), "   ")
  }

  /** One point line: each coordinate as `"  {:8.4f}"`, separated by a space, then `   ! ` and the name without `$`. */
  function PointLine(p: Vec, name: string, fmt: real -> string): string
  {
    Join(seq(|p|, i requires 0 <= i < |p| => "  " + fmt(p[i])), " ") + "   ! " + RemoveChar(name, '$')
  }

  /**
   * One line of the KPOINTS file before formatting: the comment, the grid
   * line, `Line-mode`, `reciprocal`, a point (coordinates and name) or the
   * empty line that closes a segment.
   */
  datatype FileLine = Comment | Grid(ngrids: seq<int>) | LineMode | Reciprocal | Point(coords: Vec, name: string) | Blank

  /** The text of a line, as `write_to_file` writes it. */
  function Render(line: FileLine, fmt: real -> string): string
  {
    match line
    case Comment => "! Generated by pyprocar"
    case Grid(ngrids) => GridLine(ngrids)
    case LineMode => "Line-mode"
    case Reciprocal => "reciprocal"
    case Point(p, name) => PointLine(p, name, fmt)
    case Blank => ""
  }

  /** The file's text, one string per line. */
  function Text(lines: seq<FileLine>, fmt: real -> string): (r: seq<string>)
    ensures |r| == |lines| && forall i :: 0 <= i < |lines| ==> r[i] == Render(lines[i], fmt)
  {
    seq(|lines|, i requires 0 <= i < |lines| => Render(lines[i], fmt))
  }

  /** The three lines of the first n segments: start point, end point, blank. */
  function SegmentLines(kp: KPath, n: nat): (lines: seq<FileLine>)
    requires n <= NSegments(kp) && |kp.specialKpoints| >= NSegments(kp)
  {
    if n == 0 then []
    else
      SegmentLines(kp, n - 1) +
      [Point(kp.specialKpoints[n - 1].0, kp.knames[n - 1].0),
       Point(kp.specialKpoints[n - 1].1, kp.knames[n - 1].1),
       Blank]
  }

  /** Segment i's lines sit at 3i, 3i+1 and 3i+2. */
  lemma {:induction false} SegmentLinesAt(kp: KPath, n: nat, i: nat)
    requires n <= NSegments(kp) && |kp.specialKpoints| >= NSegments(kp) && i < n
    ensures |SegmentLines(kp, n)| == 3 * n
    ensures SegmentLines(kp, n)[3 * i..3 * i + 3] ==
      [Point(kp.specialKpoints[i].0, kp.knames[i].0), Point(kp.specialKpoints[i].1, kp.knames[i].1), Blank]
  {
    if i < n - 1 {
      SegmentLinesAt(kp, n - 1, i);
    } else if n > 1 {
      SegmentLinesAt(kp, n - 1, 0);
    }
  }

  /**
   * `write_to_file` as the lines it writes. In the `vasp` format: a comment,
   * the grid line, `Line-mode`, `reciprocal`, then three lines per segment.
   * Any other format writes nothing.
   */
  function KpointsFileLines(kp: KPath, format: string): (lines: seq<FileLine>)
    requires |kp.specialKpoints| >= NSegments(kp)
    ensures format != "vasp" ==> lines == []
    ensures format == "vasp" ==> |lines| == 4 + 3 * NSegments(kp)
    ensures format == "vasp" ==> lines[..4] == [Comment, Grid(kp.ngrids), LineMode, Reciprocal]
    ensures format == "vasp" ==> forall i :: 0 <= i < NSegments(kp) ==>
      lines[4 + 3 * i] == Point(kp.specialKpoints[i].0, kp.knames[i].0) &&
      lines[5 + 3 * i] == Point(kp.specialKpoints[i].1, kp.knames[i].1) &&
      lines[6 + 3 * i] == Blank
  {
    if format != "vasp" then []
    else
      var header := [Comment, Grid(kp.ngrids), LineMode, Reciprocal];
      var body := SegmentLines(kp, NSegments(kp));
      assert |body| == 3 * NSegments(kp) by {
        if NSegments(kp) > 0 { SegmentLinesAt(kp, NSegments(kp), 0); }
      }
      assert forall i :: 0 <= i < NSegments(kp) ==>
        body[3 * i] == Point(kp.specialKpoints[i].0, kp.knames[i].0) &&
        body[3 * i + 1] == Point(kp.specialKpoints[i].1, kp.knames[i].1) &&
        body[3 * i + 2] == Blank by {
        forall i | 0 <= i < NSegments(kp)
          ensures body[3 * i] == Point(kp.specialKpoints[i].0, kp.knames[i].0)
          ensures body[3 * i + 1] == Point(kp.specialKpoints[i].1, kp.knames[i].1)
          ensures body[3 * i + 2] == Blank
        {
          SegmentLinesAt(kp, NSegments(kp), i);
          assert body[3 * i..3 * i + 3][0] == body[3 * i];
          assert body[3 * i..3 * i + 3][1] == body[3 * i + 1];
          assert body[3 * i..3 * i + 3][2] == body[3 * i + 2];
        }
      }
      header + body
  }

  /** A point line shows its name without `$`: names that agree once stripped render alike. */
  lemma RenderPointStripsDollar(p: Vec, name: string, other: string, fmt: real -> string)
    requires RemoveChar(name, '$') == RemoveChar(other, '$')
    ensures Render(Point(p, name), fmt) == Render(Point(p, other), fmt)
    ensures '$' !in other ==> Render(Point(p, name), fmt) == PointLine(p, other, fmt)
  {
  }

  /**
   * Writing a KPath built from `$`-free names lists those very names: the
   * LaTeX wrapping added by the constructor is stripped again, so each point
   * line renders as the line for the given name.
   */
  lemma WrittenNamesRoundTrip(knames: seq<NamePair>, specialKpoints: seq<PointPair>, ngrids: seq<int>,
                              fmt: real -> string, i: nat)
    requires |specialKpoints| >= |knames| && i < |knames|
    requires forall j :: 0 <= j < |knames| ==> '$' !in knames[j].0 && '$' !in knames[j].1
    ensures var lines := KpointsFileLines(MakeKPath(knames, specialKpoints, ngrids, true), "vasp");
      lines[4 + 3 * i].Point? && lines[4 + 3 * i].coords == specialKpoints[i].0 &&
      RemoveChar(lines[4 + 3 * i].name, '$') == knames[i].0 &&
      lines[5 + 3 * i].Point? && lines[5 + 3 * i].coords == specialKpoints[i].1 &&
      RemoveChar(lines[5 + 3 * i].name, '$') == knames[i].1
  {
    var kp := MakeKPath(knames, specialKpoints, ngrids, true);
    assert RemoveChar(kp.knames[i].0, '$') == RemoveChar(knames[i].0, '$');
    assert RemoveChar(kp.knames[i].1, '$') == RemoveChar(knames[i].1, '$');
  }

  /** The text of those two lines: the point lines for the given names. */
  lemma WrittenNamesText(knames: seq<NamePair>, specialKpoints: seq<PointPair>, ngrids: seq<int>,
                         fmt: real -> string, i: nat)
    requires |specialKpoints| >= |knames| && i < |knames|
    requires forall j :: 0 <= j < |knames| ==> '$' !in knames[j].0 && '$' !in knames[j].1
    ensures var lines := KpointsFileLines(MakeKPath(knames, specialKpoints, ngrids, true), "vasp");
      Render(lines[4 + 3 * i], fmt) == PointLine(specialKpoints[i].0, knames[i].0, fmt) &&
      Render(lines[5 + 3 * i], fmt) == PointLine(specialKpoints[i].1, knames[i].1, fmt)
  {
    var lines := KpointsFileLines(MakeKPath(knames, specialKpoints, ngrids, true), "vasp");
    WrittenNamesRoundTrip(knames, specialKpoints, ngrids, fmt, i);
    RenderPointStripsDollar(specialKpoints[i].0, lines[4 + 3 * i].name, knames[i].0, fmt);
    RenderPointStripsDollar(specialKpoints[i].1, lines[5 + 3 * i].name, knames[i].1, fmt);
  }
}
