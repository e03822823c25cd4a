/**
 * The list and string bookkeeping of the Lobster parser
 * (build/lib/pyprocar/io/lobster.py): reading the high-symmetry points of a
 * Quantum Espresso `K_POINTS` card, naming the FATBAND files, cutting the
 * k-point list into path segments, looking up atom and orbital indices, and
 * `str2bool`.
 *
 * Text is taken already split: a `K_POINTS` line is the sequence of its
 * whitespace-separated fields, and `float()` is a parameter `parse`.
 */
module LobsterKpoints {
  import opened Common
  import KPaths

  /** The orbital names of the parser, in FATBAND column order (columns 1..9 of `spd`). */
  const Orbitals: seq<string> := ["s", "p_y", "p_z", "p_x", "d_xy", "d_yz", "d_z^2", "d_xz", "d_x^2-y^2"]

  // ---------------------------------------------------------------------------
  // _getSpecialKpoints

  /** Every K_POINTS line has the weight field (index 3) that the loop reads. */
  predicate HasWeights(raw: seq<seq<string>>)
  {
    forall i :: 0 <= i < |raw| ==> |raw[i]| >= 4
  }

  /** A line with five fields (three coordinates, weight, `!name`) marks a high-symmetry point. */
  predicate IsLabelled(x: seq<string>)
  {
    |x| == 5
  }

  /** The lists the loop of `_getSpecialKpoints` builds, and its running `tickCountIndex`. */
  datatype SpecialKpoints = SpecialKpoints(points: seq<Vec>, knames: seq<string>, kticks: seq<int>, tickCount: nat)

  /** The state of that loop after the given lines, one line at a time. */
  function ScanLines(raw: seq<seq<string>>, parse: string -> real): SpecialKpoints
    requires HasWeights(raw)
  {
    if raw == [] then SpecialKpoints([], [], [], 0)
    else
      var r := ScanLines(raw[..|raw| - 1], parse);
      var x := raw[|raw| - 1];
      var r' := if IsLabelled(x)
        then SpecialKpoints(r.points + [[parse(x[0]), parse(x[1]), parse(x[2])]],
                            r.knames + [RemoveChar(x[4], '!')], r.kticks + [r.tickCount], r.tickCount)
        else r;
      r'.(tickCount := r.tickCount + if parse(x[3]) == 0.0 then 1 else 0)
  }

  /** The positions of the labelled lines, in order. */
  function LabelledIndices(raw: seq<seq<string>>): (idx: seq<nat>)
    ensures |idx| <= |raw|
    ensures forall j :: 0 <= j < |idx| ==> idx[j] < |raw| && IsLabelled(raw[idx[j]])
    ensures forall j, j' :: 0 <= j < j' < |idx| ==> idx[j] < idx[j']
    ensures forall i :: 0 <= i < |raw| && IsLabelled(raw[i]) ==> i in idx
  {
    if raw == [] then []
    else
      var idx := LabelledIndices(raw[..|raw| - 1]);
      if IsLabelled(raw[|raw| - 1]) then idx + [|raw| - 1] else idx
  }

  /** How many of the given lines have a zero weight. */
  function ZeroWeights(raw: seq<seq<string>>, parse: string -> real): (n: nat)
    requires HasWeights(raw)
    ensures n <= |raw|
  {
    if raw == [] then 0
    else ZeroWeights(raw[..|raw| - 1], parse) + if parse(raw[|raw| - 1][3]) == 0.0 then 1 else 0
  }

  lemma ZeroWeightsPrefix(raw: seq<seq<string>>, parse: string -> real, i: nat)
    requires HasWeights(raw) && i < |raw|
    ensures ZeroWeights(raw[..i + 1], parse) == ZeroWeights(raw[..i], parse) + if parse(raw[i][3]) == 0.0 then 1 else 0
  {
    assert raw[..i + 1][..i] == raw[..i];
  }

  lemma {:induction false} ZeroWeightsMonotone(raw: seq<seq<string>>, parse: string -> real, i: nat, j: nat)
    requires HasWeights(raw) && i <= j <= |raw|
    ensures ZeroWeights(raw[..i], parse) <= ZeroWeights(raw[..j], parse)
  {
    if i < j {
      ZeroWeightsMonotone(raw, parse, i, j - 1);
      ZeroWeightsPrefix(raw, parse, j - 1);
    }
  }

  /** The loop makes one point, one name and one tick per labelled line, and counts every zero-weight line. */
  lemma {:induction false} ScanLinesLengths(raw: seq<seq<string>>, parse: string -> real)
    requires HasWeights(raw)
    ensures var r := ScanLines(raw, parse);
      |r.points| == |LabelledIndices(raw)| && |r.knames| == |r.points| && |r.kticks| == |r.points| &&
      r.tickCount == ZeroWeights(raw, parse)
  {
    if raw != [] {
      ScanLinesLengths(raw[..|raw| - 1], parse);
    }
  }

  /**
   * The j-th labelled line gives the j-th point, the j-th name with `!` removed
   * and the j-th tick, which is the number of zero-weight lines before it.
   */
  lemma {:induction false} ScanLinesAt(raw: seq<seq<string>>, parse: string -> real, j: nat)
    requires HasWeights(raw) && j < |LabelledIndices(raw)|
    ensures var r := ScanLines(raw, parse);
      var i := LabelledIndices(raw)[j];
      |r.points| == |r.knames| == |r.kticks| == |LabelledIndices(raw)| &&
      r.points[j] == [parse(raw[i][0]), parse(raw[i][1]), parse(raw[i][2])] &&
      r.knames[j] == RemoveChar(raw[i][4], '!') &&
      r.kticks[j] == ZeroWeights(raw[..i], parse)
  {
    ScanLinesLengths(raw, parse);
    ScanLinesPointAt(raw, parse, j);
    ScanLinesNameAt(raw, parse, j);
    ScanLinesTickAt(raw, parse, j);
  }

  /** The j-th point comes from the j-th labelled line. */
  lemma {:induction false} ScanLinesPointAt(raw: seq<seq<string>>, parse: string -> real, j: nat)
    requires HasWeights(raw) && j < |LabelledIndices(raw)|
    ensures var r := ScanLines(raw, parse);
      var i := LabelledIndices(raw)[j];
      j < |r.points| && r.points[j] == [parse(raw[i][0]), parse(raw[i][1]), parse(raw[i][2])]
  {
    ScanLinesLengths(raw, parse);
    var front := raw[..|raw| - 1];
    ScanLinesLengths(front, parse);
    var idx := LabelledIndices(front);
    var r0, r := ScanLines(front, parse), ScanLines(raw, parse);
    assert r.points[..|r0.points|] == r0.points;
    if j < |idx| {
      ScanLinesPointAt(front, parse, j);
      assert LabelledIndices(raw)[j] == idx[j];
      assert r.points[j] == r.points[..|r0.points|][j];
    }
  }

  /** The j-th name is the j-th labelled line's label with `!` removed. */
  lemma {:induction false} ScanLinesNameAt(raw: seq<seq<string>>, parse: string -> real, j: nat)
    requires HasWeights(raw) && j < |LabelledIndices(raw)|
    ensures var r := ScanLines(raw, parse);
      j < |r.knames| && r.knames[j] == RemoveChar(raw[LabelledIndices(raw)[j]][4], '!')
  {
    ScanLinesLengths(raw, parse);
    var front := raw[..|raw| - 1];
    ScanLinesLengths(front, parse);
    var idx := LabelledIndices(front);
    var r0, r := ScanLines(front, parse), ScanLines(raw, parse);
    assert r.knames[..|r0.knames|] == r0.knames;
    if j < |idx| {
      ScanLinesNameAt(front, parse, j);
      assert LabelledIndices(raw)[j] == idx[j];
      assert r.knames[j] == r.knames[..|r0.knames|][j];
    }
  }

  /** The j-th tick is the number of zero-weight lines before the j-th labelled line. */
  lemma {:induction false} ScanLinesTickAt(raw: seq<seq<string>>, parse: string -> real, j: nat)
    requires HasWeights(raw) && j < |LabelledIndices(raw)|
    ensures var r := ScanLines(raw, parse);
      j < |r.kticks| && r.kticks[j] == ZeroWeights(raw[..LabelledIndices(raw)[j]], parse)
  {
    ScanLinesLengths(raw, parse);
    var n := |raw| - 1;
    var front := raw[..n];
    ScanLinesLengths(front, parse);
    var idx := LabelledIndices(front);
    var r0, r := ScanLines(front, parse), ScanLines(raw, parse);
    assert r.kticks == r0.kticks + if IsLabelled(raw[n]) then [r0.tickCount] else [];
    if j < |idx| {
      ScanLinesTickAt(front, parse, j);
      assert LabelledIndices(raw)[j] == idx[j];
      assert front[..idx[j]] == raw[..idx[j]];
    } else {
      assert LabelledIndices(raw)[j] == n;
      assert raw[..n] == front;
    }
  }

  /** The ticks never decrease, and none exceeds the number of zero-weight lines. */
  lemma TicksNondecreasing(raw: seq<seq<string>>, parse: string -> real)
    requires HasWeights(raw)
    ensures var r := ScanLines(raw, parse);
      |r.kticks| == |LabelledIndices(raw)| &&
      (forall j, j' :: 0 <= j <= j' < |r.kticks| ==> 0 <= r.kticks[j] <= r.kticks[j'] <= ZeroWeights(raw, parse))
  {
    ScanLinesLengths(raw, parse);
    var r := ScanLines(raw, parse);
    forall j, j' | 0 <= j <= j' < |r.kticks|
      ensures r.kticks[j] <= r.kticks[j'] <= ZeroWeights(raw, parse)
    {
      TicksOrdered(raw, parse, j, j');
    }
  }

  /** Two ticks in order, and the later one within the count of zero-weight lines. */
  lemma TicksOrdered(raw: seq<seq<string>>, parse: string -> real, j: nat, j': nat)
    requires HasWeights(raw) && j <= j' < |LabelledIndices(raw)|
    ensures var r := ScanLines(raw, parse);
      j' < |r.kticks| && r.kticks[j] <= r.kticks[j'] <= ZeroWeights(raw, parse)
  {
    var idx := LabelledIndices(raw);
    ScanLinesTickAt(raw, parse, j);
    ScanLinesTickAt(raw, parse, j');
    ZeroWeightsMonotone(raw, parse, idx[j], idx[j']);
    ZeroWeightsMonotone(raw, parse, idx[j'], |raw|);
    assert raw[..|raw|] == raw;
  }

  /** The names read from the K_POINTS card carry no `!`. */
  lemma NamesHaveNoBang(raw: seq<seq<string>>, parse: string -> real)
    requires HasWeights(raw)
    ensures forall j :: 0 <= j < |ScanLines(raw, parse).knames| ==> '!' !in ScanLines(raw, parse).knames[j]
  {
    ScanLinesLengths(raw, parse);
    forall j | 0 <= j < |ScanLines(raw, parse).knames| ensures '!' !in ScanLines(raw, parse).knames[j] {
      ScanLinesAt(raw, parse, j);
    }
  }

  /** `ngrids[i] = int(float(raw[i][3]))` for the first n raw lines, by raw position. */
  function NGrids(raw: seq<seq<string>>, parse: string -> real, n: nat): (g: seq<int>)
    requires HasWeights(raw) && n <= |raw|
    ensures |g| == n
    ensures forall i :: 0 <= i < n ==> g[i] as real <= parse(raw[i][3]) || parse(raw[i][3]) < 0.0
  {
    seq(n, i requires 0 <= i < n => Trunc(parse(raw[i][3])))
  }

  /** There are never more labelled lines than raw lines, so `ngrids` reads inside the card. */
  lemma NGridsInBounds(raw: seq<seq<string>>, parse: string -> real)
    requires HasWeights(raw)
    ensures |ScanLines(raw, parse).knames| <= |raw|
  {
    ScanLinesLengths(raw, parse);
  }

  // ---------------------------------------------------------------------------
  // _readFileNames

  /** `dirname` as the constructor stores it: a separator is appended unless it is empty. */
  function DirPrefix(dirname: string): string
  {
    if dirname != "" then dirname + "/" else ""
  }

  /** `FATBAND_<element>_<orbital>.lobster`. */
  function FatbandBase(element: string, orbital: string): string
  {
    "FATBAND_" + element + "_" + orbital + ".lobster"
  }

  /** The file name as `_readFileNames` writes it: the stored prefix, another separator, the base. */
  function FatbandNameAsWritten(dir: string, element: string, orbital: string): string
  {
    dir + "/" + FatbandBase(element, orbital)
  }

  /** The file name the stored prefix calls for: the prefix (already ending in a separator) and the base. */
  function FatbandName(dir: string, element: string, orbital: string): string
  {
    dir + FatbandBase(element, orbital)
  }

  /** With no directory the names as written point at the root of the file system. */
  lemma FatbandNameAsWrittenIsAbsolute(element: string, orbital: string)
    ensures FatbandNameAsWritten(DirPrefix(""), element, orbital)[0] == '/'
    ensures FatbandNameAsWritten(DirPrefix(""), element, orbital) != FatbandBase(element, orbital)
  {
    assert FatbandNameAsWritten(DirPrefix(""), element, orbital) == "/" + FatbandBase(element, orbital);
  }

  /** With a directory the names as written carry a doubled separator. */
  lemma FatbandNameAsWrittenDoublesSeparator(dirname: string, element: string, orbital: string)
    requires dirname != ""
    ensures FatbandNameAsWritten(DirPrefix(dirname), element, orbital) == dirname + "//" + FatbandBase(element, orbital)
  {
  }

  /** The corrected name is the base inside the directory, or the bare base when there is none. */
  lemma FatbandNameInDirectory(dirname: string, element: string, orbital: string)
    ensures dirname == "" ==> FatbandName(DirPrefix(dirname), element, orbital) == FatbandBase(element, orbital)
    ensures dirname != "" ==>
      FatbandName(DirPrefix(dirname), element, orbital) == dirname + "/" + FatbandBase(element, orbital)
  {
  }

  /** One regex match of `calculating FatBand for Element: <element> Orbital(s): <orbitals>`, orbitals split. */
  type Projection = (string, seq<string>)

  /** The names `_readFileNames` appends: per match, one per orbital token, in order, each as written. */
  function FileNames(dir: string, proj: seq<Projection>): seq<string>
  {
    if proj == [] then []
    else
      var p := proj[|proj| - 1];
      FileNames(dir, proj[..|proj| - 1]) + seq(|p.1|, o requires 0 <= o < |p.1| => FatbandNameAsWritten(dir, p.0, p.1[o]))
  }

  /** The number of orbital tokens of each match. */
  function OrbitalCounts(proj: seq<Projection>): (c: seq<int>)
    ensures |c| == |proj| && forall p :: 0 <= p < |proj| ==> c[p] == |proj[p].1|
  {
    seq(|proj|, p requires 0 <= p < |proj| => |proj[p].1|)
  }

  /** There is one file name per orbital token. */
  lemma {:induction false} FileNamesCount(dir: string, proj: seq<Projection>)
    ensures |FileNames(dir, proj)| == Sum(OrbitalCounts(proj))
  {
    if proj != [] {
      var n := |proj| - 1;
      FileNamesCount(dir, proj[..n]);
      assert OrbitalCounts(proj)[..n] == OrbitalCounts(proj[..n]);
    }
  }

  /** The name for orbital o of match p sits after the names of all earlier matches. */
  lemma {:induction false} FileNamesAt(dir: string, proj: seq<Projection>, p: nat, o: nat)
    requires p < |proj| && o < |proj[p].1|
    ensures 0 <= Sum(OrbitalCounts(proj)[..p]) && Sum(OrbitalCounts(proj)[..p]) + o < |FileNames(dir, proj)| &&
      FileNames(dir, proj)[Sum(OrbitalCounts(proj)[..p]) + o] == FatbandNameAsWritten(dir, proj[p].0, proj[p].1[o])
  {
    var n := |proj| - 1;
    var front := FileNames(dir, proj[..n]);
    FileNamesCount(dir, proj[..n]);
    SumNonNegative(OrbitalCounts(proj)[..p]);
    assert OrbitalCounts(proj)[..n] == OrbitalCounts(proj[..n]);
    if p < n {
      FileNamesAt(dir, proj[..n], p, o);
      assert OrbitalCounts(proj[..n])[..p] == OrbitalCounts(proj)[..p];
    } else {
      assert OrbitalCounts(proj)[..p] == OrbitalCounts(proj[..n]);
    }
  }

  // ---------------------------------------------------------------------------
  // _createKPath

  /** Every tick indexes a k-point. */
  predicate TicksIndex(kticks: seq<int>, nkpoints: nat)
  {
    forall i :: 0 <= i < |kticks| ==> 0 <= kticks[i] < nkpoints
  }

  /** `special_kpoints`: segment i runs from the k-point at tick i to the k-point at tick i+1. */
  function PathSegments(kpoints: seq<Vec>, kticks: seq<int>): (r: seq<KPaths.PointPair>)
    requires |kticks| >= 1 && TicksIndex(kticks, |kpoints|)
    ensures |r| == |kticks| - 1
  {
    seq(|kticks| - 1, i requires 0 <= i < |kticks| - 1 => (kpoints[kticks[i]], kpoints[kticks[i + 1]]))
  }

  /** `modified_knames`: segment i is named by the high-symmetry names i and i+1. */
  function SegmentNames(knames: seq<string>, nsegments: nat): (r: seq<KPaths.NamePair>)
    requires nsegments < |knames|
    ensures |r| == nsegments
  {
    seq(nsegments, i requires 0 <= i < nsegments => (knames[i], knames[i + 1]))
  }

  /** The segments start and end on the ticked k-points, and each starts where the previous one ends. */
  lemma SegmentsChain(kpoints: seq<Vec>, kticks: seq<int>)
    requires |kticks| >= 1 && TicksIndex(kticks, |kpoints|)
    ensures var r := PathSegments(kpoints, kticks);
      (forall i :: 0 <= i < |r| ==> r[i].0 == kpoints[kticks[i]] && r[i].1 == kpoints[kticks[i + 1]]) &&
      (forall i :: 1 <= i < |r| ==> r[i].0 == r[i - 1].1)
  {
  }

  /** The segment names chain the same way. */
  lemma SegmentNamesChain(knames: seq<string>, nsegments: nat)
    requires nsegments < |knames|
    ensures var r := SegmentNames(knames, nsegments);
      (forall i :: 0 <= i < nsegments ==> r[i].0 == knames[i] && r[i].1 == knames[i + 1]) &&
      (forall i :: 1 <= i < nsegments ==> r[i].0 == r[i - 1].1)
  {
  }

  /**
   * Because the segments chain, the tick labels of such a path are exactly the
   * high-symmetry names: no boundary is ever joined as `A|B`.
   */
  lemma SegmentTickNames(knames: seq<string>, nsegments: nat)
    requires 1 <= nsegments < |knames|
    ensures forall i :: 0 <= i <= nsegments ==> KPaths.TickNameAt(SegmentNames(knames, nsegments), i) == knames[i]
  {
    var r := SegmentNames(knames, nsegments);
    KPaths.ContinuousPathTickNames(r);
  }

  /** Wrapping every name in `$...$` keeps the segments chained, so the labels are the wrapped names. */
  lemma WrappedSegmentTickNames(knames: seq<string>, nsegments: nat)
    requires 1 <= nsegments < |knames| && !KPaths.HasDollar(SegmentNames(knames, nsegments))
    ensures forall i :: 0 <= i <= nsegments ==>
      KPaths.TickNameAt(KPaths.WrapNames(SegmentNames(knames, nsegments)), i) == "$" + knames[i] + "$"
  {
    var r := SegmentNames(knames, nsegments);
    var w := KPaths.WrapNames(r);
    forall j | 0 <= j < |w|
      ensures w[j].0 == "$" + knames[j] + "$" && w[j].1 == "$" + knames[j + 1] + "$"
    {
      assert r[j] == (knames[j], knames[j + 1]);
    }
    KPaths.ContinuousPathTickNames(w);
  }

  /**
   * The tick labels of the path built from those segments: the high-symmetry
   * names, each wrapped in `$...$` unless some name already has a `$`.
   */
  lemma PathTickNames(knames: seq<string>, nsegments: nat, points: seq<KPaths.PointPair>, ngrids: seq<int>,
                      hasTimeReversal: bool)
    requires 1 <= nsegments < |knames|
    ensures var kp := KPaths.MakeKPath(SegmentNames(knames, nsegments), points, ngrids, hasTimeReversal);
      KPaths.HasDollar(SegmentNames(knames, nsegments)) ==>
      forall i :: 0 <= i <= nsegments ==> KPaths.TickNameAt(kp.knames, i) == knames[i]
    ensures var kp := KPaths.MakeKPath(SegmentNames(knames, nsegments), points, ngrids, hasTimeReversal);
      !KPaths.HasDollar(SegmentNames(knames, nsegments)) ==>
      forall i :: 0 <= i <= nsegments ==> KPaths.TickNameAt(kp.knames, i) == "$" + knames[i] + "$"
  {
    var r := SegmentNames(knames, nsegments);
    assert KPaths.MakeKPath(r, points, ngrids, hasTimeReversal).knames == KPaths.WrapNames(r);
    if KPaths.HasDollar(r) {
      SegmentTickNames(knames, nsegments);
    } else {
      WrappedSegmentTickNames(knames, nsegments);
    }
  }

  // ---------------------------------------------------------------------------
  // Index lookup in _readFatBands

  /** The last position of x in s, or -1 when x does not occur. */
  function LastIndexOf(s: seq<string>, x: string): (r: int)
    ensures -1 <= r < |s|
    ensures r == -1 <==> x !in s
    ensures r >= 0 ==> s[r] == x && forall j :: r < j < |s| ==> s[j] != x
  {
    if s == [] then -1
    else if s[|s| - 1] == x then |s| - 1
    else LastIndexOf(s[..|s| - 1], x)
  }

  /** Python's `s[1:]`. */
  function DropFirst(s: string): string
  {
    if s == [] then [] else s[1..]
  }

  /** `iion`: the last position of the file's atom in the atom list, or 0 when it is not there. */
  function IonIndex(ions: seq<string>, ion: string): (r: nat)
    ensures ion in ions ==> r < |ions| && ions[r] == ion && forall j :: r < j < |ions| ==> ions[j] != ion
    ensures ion !in ions ==> r == 0
  {
    var i := LastIndexOf(ions, ion);
    if i < 0 then 0 else i
  }

  /** `iorbital`: one past the last position of the token without its first character, or 0. */
  function OrbitalIndex(orbitals: seq<string>, token: string): (r: nat)
    ensures r <= |orbitals|
    ensures DropFirst(token) in orbitals ==>
      1 <= r && orbitals[r - 1] == DropFirst(token) && forall j :: r - 1 < j < |orbitals| ==> orbitals[j] != DropFirst(token)
    ensures DropFirst(token) !in orbitals ==> r == 0
  {
    LastIndexOf(orbitals, DropFirst(token)) + 1
  }

  /** The parser's orbital names are distinct, so a token names exactly one column. */
  lemma OrbitalColumns(token: string, j: nat)
    requires j < |Orbitals| && DropFirst(token) == Orbitals[j]
    ensures OrbitalIndex(Orbitals, token) == j + 1
  {
  }

  // ---------------------------------------------------------------------------
  // str2bool

  /** `v.lower() in ("true")`: the parentheses make no tuple, so this is a substring test. */
  predicate Str2BoolAsWritten(v: string)
  {
    Contains("true", Lower(v))
  }

  /** The comparison the function's name promises. */
  predicate Str2Bool(v: string)
  {
    Lower(v) == "true"
  }

  /** The substring test also accepts the empty string and fragments of "true". */
  lemma Str2BoolAsWrittenAcceptsFragments()
    ensures Str2BoolAsWritten("") && !Str2Bool("")
    ensures Str2BoolAsWritten("t") && !Str2Bool("t")
  {
    assert OccursAt("true", Lower(""), 0);
    assert Lower("t") == "t";
    assert OccursAt("true", Lower("t"), 0);
  }

  /** The corrected test accepts "true" in any letter case and nothing else; the test as written accepts all of those too. */
  lemma Str2BoolCaseInsensitive(v: string)
    ensures Str2Bool(v) <==> |v| == 4 && forall i :: 0 <= i < 4 ==> LowerChar(v[i]) == "true"[i]
    ensures Str2Bool(v) ==> Str2BoolAsWritten(v)
  {
    if Str2Bool(v) {
      assert OccursAt("true", Lower(v), 0);
    }
    if |v| == 4 && forall i :: 0 <= i < 4 ==> LowerChar(v[i]) == "true"[i] {
      assert Lower(v) == "true";
    }
  }
}
