/**
 * The `kpath` script: reads the cell, the atomic positions and the species of
 * a POSCAR, hands them to a symmetry-path finder, and writes the path it gets
 * back as a line-mode KPOINTS file. The POSCAR is given as lines already split
 * into fields; the path finder's answer (the labelled segments and the
 * coordinates of each label) is an input. Models
 * build/lib/pyprocar/scripts/scriptKpath.py.
 */
module KpointsScript {
  import opened Common

  /** The labels at the two ends of one segment of the path. */
  type Segment = (string, string)

  // ---------------------------------------------------------------------------
  // Rows of real matrices

  /** Row i of m as a sequence. */
  function Row(m: array2<real>, i: nat): (r: Vec)
    requires i < m.Length0
    reads m
    ensures |r| == m.Length1 && forall j :: 0 <= j < m.Length1 ==> r[j] == m[i, j]
  {
    seq(m.Length1, j requires 0 <= j < m.Length1 reads m => m[i, j])
  }

  /** `m[i, :] = r` for a three-column matrix. */
  method SetRow(m: array2<real>, i: nat, r: Vec)
    requires i < m.Length0 && m.Length1 == 3 && |r| == 3
    modifies m
    ensures Row(m, i) == r
    ensures forall k :: 0 <= k < m.Length0 && k != i ==> Row(m, k) == old(Row(m, k))
  {
    m[i, 0], m[i, 1], m[i, 2] := r[0], r[1], r[2];
  }

  /** Every field of a line as a real. */
  function ParseAll(fields: seq<string>, parse: string -> real): (r: Vec)
    ensures |r| == |fields| && forall j :: 0 <= j < |fields| ==> r[j] == parse(fields[j])
  {
    seq(|fields|, j requires 0 <= j < |fields| => parse(fields[j]))
  }

  // ---------------------------------------------------------------------------
  // The cell

  /**
   * Lines 2..4 hold the lattice vectors (as many of them as the file has),
   * three fields each, and line 1 the scale: one factor, or one per column.
   */
  predicate CellReadable(poscar: seq<seq<string>>)
  {
    |poscar| >= 2 && (|poscar[1]| == 1 || |poscar[1]| == 3) &&
    forall i :: 2 <= i < 5 && i < |poscar| ==> |poscar[i]| == 3
  }

  /** Row i of the cell: the fields of line 2+i times the scale, or zeros past the end of the file. */
  function CellRow(poscar: seq<seq<string>>, parse: string -> real, i: nat): (r: Vec)
    requires CellReadable(poscar) && i < 3
    ensures |r| == 3
    ensures 2 + i < |poscar| ==> forall j :: 0 <= j < 3 ==>
      r[j] == parse(poscar[2 + i][j]) * parse(poscar[1][if |poscar[1]| == 1 then 0 else j])
    ensures 2 + i >= |poscar| ==> r == [0.0, 0.0, 0.0]
  {
    if 2 + i < |poscar| then
      var row := ParseAll(poscar[2 + i], parse);
      var scale := ParseAll(poscar[1], parse);
      seq(3, j requires 0 <= j < 3 => row[j] * scale[if |scale| == 1 then 0 else j])
    else [0.0, 0.0, 0.0]
  }

  /** `cell`: a zero 3x3 matrix whose rows are overwritten by the scaled lattice lines. */
  method ReadCell(poscar: seq<seq<string>>, parse: string -> real) returns (cell: array2<real>)
    requires CellReadable(poscar)
    ensures fresh(cell) && cell.Length0 == 3 && cell.Length1 == 3
    ensures forall i :: 0 <= i < 3 ==> Row(cell, i) == CellRow(poscar, parse, i)
  {
    var cellMatrix := poscar[2..if |poscar| < 5 then |poscar| else 5];
    cell := new real[3, 3]((i, j) => 0.0);
    for i := 0 to |cellMatrix|
      invariant forall k :: 0 <= k < i ==> Row(cell, k) == CellRow(poscar, parse, k)
      invariant forall k :: i <= k < 3 ==> Row(cell, k) == [0.0, 0.0, 0.0]
    {
      SetRow(cell, i, CellRow(poscar, parse, i));
    }
    forall k | |cellMatrix| <= k < 3 ensures Row(cell, k) == CellRow(poscar, parse, k) {
    }
  }

  // ---------------------------------------------------------------------------
  // Positions

  /** The atom count of each species: the fields of line 6 as integers, none of them negative. */
  predicate CountsReadable(poscar: seq<seq<string>>, parseInt: string -> int)
  {
    |poscar| >= 7 && forall j :: 0 <= j < |poscar[6]| ==> parseInt(poscar[6][j]) >= 0
  }

  function AtomCounts(poscar: seq<seq<string>>, parseInt: string -> int): (atoms: seq<nat>)
    requires CountsReadable(poscar, parseInt)
    ensures |atoms| == |poscar[6]| && forall j :: 0 <= j < |atoms| ==> atoms[j] == parseInt(poscar[6][j])
  {
    seq(|poscar[6]|, j requires 0 <= j < |poscar[6]| && CountsReadable(poscar, parseInt) => parseInt(poscar[6][j]) as nat)
  }

  /** Sum of the atom counts, as a size. */
  function Total(atoms: seq<nat>): (n: nat)
    ensures n == Sum(atoms)
  {
    SumNonNegative(atoms);
    Sum(atoms)
  }

  /** The position lines (from line 8, one per atom, as many as the file has) have at least three fields. */
  predicate PositionsReadable(poscar: seq<seq<string>>, natoms: nat)
  {
    forall j :: 8 <= j < 8 + natoms && j < |poscar| ==> |poscar[j]| >= 3
  }

  /** Position of atom j: the first three fields of line 8+j, or zeros past the end of the file. */
  function PositionRow(poscar: seq<seq<string>>, parse: string -> real, natoms: nat, j: nat): (r: Vec)
    requires PositionsReadable(poscar, natoms) && j < natoms
    ensures |r| == 3
  {
    if 8 + j < |poscar| then ParseAll(poscar[8 + j][..3], parse) else [0.0, 0.0, 0.0]
  }

  /** `positions`: a zero natoms-by-3 matrix whose rows are overwritten by the position lines. */
  method ReadPositions(poscar: seq<seq<string>>, parse: string -> real, natoms: nat) returns (positions: array2<real>)
    requires PositionsReadable(poscar, natoms)
    ensures fresh(positions) && positions.Length0 == natoms && positions.Length1 == 3
    ensures forall j :: 0 <= j < natoms ==> Row(positions, j) == PositionRow(poscar, parse, natoms, j)
  {
    var positionsMatrix := if |poscar| <= 8 then [] else poscar[8..if |poscar| < 8 + natoms then |poscar| else 8 + natoms];
    positions := new real[natoms, 3]((i, j) => 0.0);
    for j := 0 to |positionsMatrix|
      invariant forall k :: 0 <= k < j ==> Row(positions, k) == PositionRow(poscar, parse, natoms, k)
      invariant forall k :: j <= k < natoms ==> Row(positions, k) == [0.0, 0.0, 0.0]
    {
      SetRow(positions, j, ParseAll(positionsMatrix[j][..3], parse));
    }
    forall k | |positionsMatrix| <= k < natoms ensures Row(positions, k) == PositionRow(poscar, parse, natoms, k) {
    }
  }

  /** Whatever the other lines hold, the positions come only from lines 8 .. 8+natoms-1. */
  lemma PositionsFromAtomLines(poscar: seq<seq<string>>, other: seq<seq<string>>, parse: string -> real, natoms: nat)
    requires |poscar| == |other| && PositionsReadable(poscar, natoms)
    requires forall j :: 8 <= j < 8 + natoms && j < |poscar| ==> other[j] == poscar[j]
    ensures PositionsReadable(other, natoms)
    ensures forall j :: 0 <= j < natoms ==> PositionRow(other, parse, natoms, j) == PositionRow(poscar, parse, natoms, j)
  {
    forall j | 0 <= j < natoms ensures PositionRow(other, parse, natoms, j) == PositionRow(poscar, parse, natoms, j) {
      if 8 + j < |poscar| {
        assert other[8 + j] == poscar[8 + j];
      }
    }
  }

  // ---------------------------------------------------------------------------
  // Species numbers

  function Repeat(v: nat, n: nat): (r: seq<nat>)
    ensures |r| == n && forall i :: 0 <= i < n ==> r[i] == v
  {
    seq(n, _ => v)
  }

  /** The species number of every atom: `atoms[j]` copies of j+1, species after species. */
  function SpeciesNumbers(atoms: seq<nat>): seq<nat>
  {
    if atoms == [] then [] else SpeciesNumbers(atoms[..|atoms| - 1]) + Repeat(|atoms|, atoms[|atoms| - 1])
  }

  /** One species number per atom. */
  lemma {:induction false} SpeciesNumbersLength(atoms: seq<nat>)
    ensures |SpeciesNumbers(atoms)| == Sum(atoms)
  {
    if atoms != [] {
      SpeciesNumbersLength(atoms[..|atoms| - 1]);
    }
  }

  /** Species j+1 fills exactly the entries from `sum(atoms[:j])` up to `sum(atoms[:j+1])`. */
  lemma {:induction false} SpeciesNumbersAt(atoms: seq<nat>, j: nat, k: nat)
    requires j < |atoms|
    ensures Sum(atoms[..j + 1]) == Sum(atoms[..j]) + atoms[j]
    ensures Sum(atoms[..j]) <= k < Sum(atoms[..j + 1]) ==>
      k < |SpeciesNumbers(atoms)| && SpeciesNumbers(atoms)[k] == j + 1
  {
    SumPrefixStep(atoms, j);
    var front := atoms[..|atoms| - 1];
    SpeciesNumbersLength(front);
    SpeciesNumbersLength(atoms);
    assert atoms[..|atoms|] == atoms;
    if j < |front| {
      SpeciesNumbersAt(front, j, k);
      assert front[..j] == atoms[..j] && front[..j + 1] == atoms[..j + 1];
      if Sum(atoms[..j]) <= k < Sum(atoms[..j + 1]) {
        assert SpeciesNumbers(atoms)[k] == SpeciesNumbers(front)[k];
      }
    }
  }

  /** Species numbers run from 1 to the number of species and never decrease. */
  lemma {:induction false} SpeciesNumbersSorted(atoms: seq<nat>)
    ensures forall i :: 0 <= i < |SpeciesNumbers(atoms)| ==> 1 <= SpeciesNumbers(atoms)[i] <= |atoms|
    ensures forall i, k :: 0 <= i <= k < |SpeciesNumbers(atoms)| ==> SpeciesNumbers(atoms)[i] <= SpeciesNumbers(atoms)[k]
  {
    if atoms != [] {
      SpeciesNumbersSorted(atoms[..|atoms| - 1]);
    }
  }

  /** `numbers`: the species counter written into consecutive entries, `atoms[j]` times for species j+1. */
  method Numbers(atoms: seq<nat>) returns (numbers: array<nat>)
    ensures fresh(numbers) && numbers[..] == SpeciesNumbers(atoms)
  {
    numbers := new nat[Total(atoms)](_ => 0);
    var counter := 0;
    var atomCounter := 1;
    for idx := 0 to |atoms|
      invariant counter == Sum(atoms[..idx]) && atomCounter == idx + 1
      invariant counter <= numbers.Length && numbers[..counter] == SpeciesNumbers(atoms[..idx])
    {
      var ii := atoms[idx];
      SumPrefixStep(atoms, idx);
      SumPrefixMonotone(atoms, idx + 1, |atoms|);
      assert atoms[..|atoms|] == atoms;
      for kk := 0 to ii
        invariant counter == Sum(atoms[..idx]) + kk
        invariant numbers[..counter] == SpeciesNumbers(atoms[..idx]) + Repeat(atomCounter, kk)
      {
        numbers[counter] := atomCounter;
        counter := counter + 1;
      }
      assert atoms[..idx + 1][..idx] == atoms[..idx];
      atomCounter := atomCounter + 1;
    }
    assert atoms[..|atoms|] == atoms;
    SpeciesNumbersLength(atoms);
  }

  // ---------------------------------------------------------------------------
  // The path

  /** The path's labels in order, the two ends of each segment one after the other. */
  function Flatten(path: seq<Segment>): (r: seq<string>)
    ensures |r| == 2 * |path|
  {
    if path == [] then [] else Flatten(path[..|path| - 1]) + [path[|path| - 1].0, path[|path| - 1].1]
  }

  /** Consecutive pairs of a label sequence of even length. */
  function Pairs(labels: seq<string>): (r: seq<Segment>)
    requires |labels| % 2 == 0
    ensures |r| == |labels| / 2 && forall i :: 0 <= i < |r| ==> r[i] == (labels[2 * i], labels[2 * i + 1])
  {
    seq(|labels| / 2, i requires 0 <= i < |labels| / 2 => (labels[2 * i], labels[2 * i + 1]))
  }

  /** `path_array` has two entries per segment: its start at 2i and its end at 2i+1. */
  lemma {:induction false} FlattenLayout(path: seq<Segment>)
    ensures forall i :: 0 <= i < |path| ==> Flatten(path)[2 * i] == path[i].0 && Flatten(path)[2 * i + 1] == path[i].1
  {
    if path != [] {
      var front := path[..|path| - 1];
      FlattenLayout(front);
      forall i | 0 <= i < |path| ensures Flatten(path)[2 * i] == path[i].0 && Flatten(path)[2 * i + 1] == path[i].1 {
        if i < |front| {
          assert front[i] == path[i];
        }
      }
    }
  }

  /** The labels of segment i, one at a time. */
  lemma {:induction false} FlattenAt(path: seq<Segment>, i: nat)
    requires i < |path|
    ensures Flatten(path)[2 * i] == path[i].0 && Flatten(path)[2 * i + 1] == path[i].1
  {
    var front := path[..|path| - 1];
    if i < |front| {
      FlattenAt(front, i);
      assert front[i] == path[i];
    }
  }

  /** Pairing up the flattened labels gives back the path. */
  lemma FlattenPairs(path: seq<Segment>)
    ensures |Flatten(path)| % 2 == 0 && Pairs(Flatten(path)) == path
  {
    FlattenLayout(path);
  }

  /** `path_array`: a counter pair (2i, 2i+1) walks the segments and writes their two labels. */
  method PathArray(path: seq<Segment>) returns (pathArray: array<string>)
    ensures fresh(pathArray) && pathArray[..] == Flatten(path)
  {
    pathArray := new string[2 * |path|](_ => "");
    var count := 0;
    var count2 := 1;
    for pathCounter := 0 to |path|
      invariant count == 2 * pathCounter && count2 == count + 1
      invariant pathArray[..count] == Flatten(path[..pathCounter])
    {
      pathArray[count] := path[pathCounter].0;
      pathArray[count2] := path[pathCounter].1;
      assert path[..pathCounter + 1][..pathCounter] == path[..pathCounter];
      assert pathArray[..count + 2] == pathArray[..count] + [path[pathCounter].0, path[pathCounter].1];
      count := count + 2;
      count2 := count2 + 2;
    }
    assert path[..|path|] == path;
  }

  /**
   * Every label has coordinates, and the supercell matrix has one row per
   * coordinate and three columns.
   */
  predicate CoordsFit(labels: seq<string>, pointCoords: map<string, Vec>, supercell: Matrix)
  {
    |supercell| > 0 && Rectangular(supercell, 3) &&
    forall m :: 0 <= m < |labels| ==> labels[m] in pointCoords && |pointCoords[labels[m]]| == |supercell|
  }

  /** Row m of `coord_matrix`: the coordinates of label m times the supercell matrix. */
  function CoordRow(labels: seq<string>, pointCoords: map<string, Vec>, supercell: Matrix, m: nat): (r: Vec)
    requires CoordsFit(labels, pointCoords, supercell) && m < |labels|
    ensures |r| == 3
  {
    VecMat(pointCoords[labels[m]], supercell)
  }

  /** With the default identity supercell, each row is just the label's coordinates. */
  lemma CoordRowIdentity(labels: seq<string>, pointCoords: map<string, Vec>, m: nat)
    requires CoordsFit(labels, pointCoords, Identity(3)) && m < |labels|
    ensures CoordRow(labels, pointCoords, Identity(3), m) == pointCoords[labels[m]]
  {
    VecMatIdentity(pointCoords[labels[m]]);
  }

  /** `coord_matrix`: a zero matrix with one row per label, filled row by row. */
  method CoordMatrix(pathArray: array<string>, pointCoords: map<string, Vec>, supercell: Matrix)
    returns (coordMatrix: array2<real>)
    requires CoordsFit(pathArray[..], pointCoords, supercell)
    ensures fresh(coordMatrix) && coordMatrix.Length0 == pathArray.Length && coordMatrix.Length1 == 3
    ensures forall m :: 0 <= m < pathArray.Length ==> Row(coordMatrix, m) == CoordRow(pathArray[..], pointCoords, supercell, m)
  {
    coordMatrix := new real[pathArray.Length, 3]((i, j) => 0.0);
    var pathArrayCounter := 0;
    for mm := 0 to coordMatrix.Length0
      invariant pathArrayCounter == mm
      invariant forall k :: 0 <= k < mm ==> Row(coordMatrix, k) == CoordRow(pathArray[..], pointCoords, supercell, k)
    {
      SetRow(coordMatrix, mm, VecMat(pointCoords[pathArray[pathArrayCounter]], supercell));
      pathArrayCounter := pathArrayCounter + 1;
    }
  }

  // ---------------------------------------------------------------------------
  // The KPOINTS file

  /**
   * One line of the KPOINTS file before formatting: the title, the grid-size
   * line, the `Line_mode` and `reciprocal` lines, a point (coordinates and
   * label) or the empty line that closes a segment.
   */
  datatype KLine = Title | GridPoints(gridSize: int) | LineMode | Reciprocal | Point(coords: Vec, name: string) | Blank

  /** The point lines have three coordinates each. */
  predicate Formattable(lines: seq<KLine>)
  {
    forall i :: 0 <= i < |lines| && lines[i].Point? ==> |lines[i].coords| == 3
  }

  /** The text of a line, as the script writes it; `fmt` formats a real as `%f` does. */
  function Render(line: KLine, fmt: real -> string): string
    requires line.Point? ==> |line.coords| == 3
  {
    match line
    case Title => "KPOINTS generated by PyProcar"
    case GridPoints(n) => IntToString(n) + " ! Grid points"
    case LineMode => "Line_mode"
    case Reciprocal => "reciprocal"
    case Point(c, name) => fmt(c[0]) + " " + fmt(c[1]) + " " + fmt(c[2]) + " ! " + name
    case Blank => ""
  }

  /** The empty lines of the file are exactly the segment separators. */
  lemma RenderEmptyIffBlank(line: KLine, fmt: real -> string)
    requires line.Point? ==> |line.coords| == 3
    ensures Render(line, fmt) == "" <==> line == Blank
  {
    if line.Point? {
      assert |Render(line, fmt)| >= 3;
    }
  }

  /** A point line ends with ` ! ` and the point's label. */
  lemma RenderPointLabel(coords: Vec, name: string, fmt: real -> string)
    requires |coords| == 3
    ensures var text := Render(Point(coords, name), fmt);
      |text| >= |name| + 3 && text[|text| - |name| - 3..] == " ! " + name
  {
    var head := fmt(coords[0]) + " " + fmt(coords[1]) + " " + fmt(coords[2]);
    assert Render(Point(coords, name), fmt) == head + (" ! " + name);
  }

  /** The file's text, one string per line. */
  function Text(lines: seq<KLine>, fmt: real -> string): (r: seq<string>)
    requires Formattable(lines)
    ensures |r| == |lines| && forall i :: 0 <= i < |lines| ==> r[i] == Render(lines[i], fmt)
  {
    seq(|lines|, i requires 0 <= i < |lines| && Formattable(lines) => Render(lines[i], fmt))
  }

  /** The four header lines. */
  function Header(gridSize: int): seq<KLine>
  {
    [Title, GridPoints(gridSize), LineMode, Reciprocal]
  }

  /** One point line per row, each with its label. */
  function PointLines(rows: seq<Vec>, labels: seq<string>): (r: seq<KLine>)
    requires |rows| <= |labels|
    ensures |r| == |rows| && forall m :: 0 <= m < |rows| ==> r[m] == Point(rows[m], labels[m])
  {
    seq(|rows|, m requires 0 <= m < |rows| => Point(rows[m], labels[m]))
  }

  /** The first n point lines, with an empty line after every odd-numbered one. */
  function Spaced(points: seq<KLine>, n: nat): seq<KLine>
    requires n <= |points|
  {
    if n == 0 then []
    else
      var blank := if (n - 1) % 2 == 1 then [Blank] else [];
      Spaced(points, n - 1) + [points[n - 1]] + blank
  }

  /** After 2p point lines there are 3p lines. */
  lemma {:induction false} SpacedLength(points: seq<KLine>, p: nat)
    requires 2 * p <= |points|
    ensures |Spaced(points, 2 * p)| == 3 * p
  {
    if p > 0 {
      SpacedLength(points, p - 1);
    }
  }

  /** Segment i's start line sits at 3i, its end line at 3i+1 and an empty line at 3i+2. */
  lemma {:induction false} SpacedAt(points: seq<KLine>, p: nat, i: nat)
    requires 2 * p <= |points| && i < p
    ensures 3 * i + 2 < |Spaced(points, 2 * p)|
    ensures Spaced(points, 2 * p)[3 * i..3 * i + 3] == [points[2 * i], points[2 * i + 1], Blank]
  {
    SpacedLength(points, p);
    SpacedLength(points, p - 1);
    if i < p - 1 {
      SpacedAt(points, p - 1, i);
    }
    assert Spaced(points, 2 * p) == Spaced(points, 2 * p - 2) + [points[2 * p - 2], points[2 * p - 1], Blank];
  }

  /** The rows of a three-column matrix. */
  function Rows(m: array2<real>): (r: seq<Vec>)
    requires m.Length1 == 3
    reads m
    ensures |r| == m.Length0 && forall i :: 0 <= i < |r| ==> r[i] == Row(m, i) && |r[i]| == 3
  {
    seq(m.Length0, i requires 0 <= i < m.Length0 reads m => Row(m, i))
  }

  /** The output loop: a line per coordinate row, and an empty line after each segment's end point. */
  method WriteKpoints(gridSize: int, coordMatrix: array2<real>, pathArray: array<string>)
    returns (lines: seq<KLine>)
    requires coordMatrix.Length1 == 3 && coordMatrix.Length0 <= pathArray.Length
    ensures lines == Header(gridSize) + Spaced(PointLines(Rows(coordMatrix), pathArray[..]), coordMatrix.Length0)
  {
    ghost var points := PointLines(Rows(coordMatrix), pathArray[..]);
    lines := Header(gridSize);
    ghost var header := lines;
    for irow := 0 to coordMatrix.Length0
      invariant lines == header + Spaced(points, irow)
    {
      var row := Row(coordMatrix, irow);
      if irow % 2 == 0 {
        lines := lines + [Point(row, pathArray[irow])];
      } else {
        lines := lines + [Point(row, pathArray[irow]), Blank];
      }
    }
  }

  /** The rows of `coord_matrix`, one per label. */
  function CoordRows(labels: seq<string>, pointCoords: map<string, Vec>, supercell: Matrix): (r: seq<Vec>)
    requires CoordsFit(labels, pointCoords, supercell)
    ensures |r| == |labels| && forall m :: 0 <= m < |labels| ==> r[m] == CoordRow(labels, pointCoords, supercell, m)
  {
    seq(|labels|, m requires 0 <= m < |labels| => CoordRow(labels, pointCoords, supercell, m))
  }

  /** All lines of the KPOINTS file for the given labels and coordinate rows. */
  function KpointsLines(gridSize: int, labels: seq<string>, rows: seq<Vec>): seq<KLine>
    requires |rows| == |labels|
  {
    Header(gridSize) + Spaced(PointLines(rows, labels), |labels|)
  }

  /** Four header lines, the second holding the grid size, then three lines per segment. */
  lemma KpointsLinesHeader(gridSize: int, path: seq<Segment>, rows: seq<Vec>)
    requires |rows| == 2 * |path|
    ensures var lines := KpointsLines(gridSize, Flatten(path), rows);
      |lines| == 4 + 3 * |path| && lines[..4] == Header(gridSize) && lines[1] == GridPoints(gridSize)
  {
    SpacedLength(PointLines(rows, Flatten(path)), |path|);
  }

  /**
   * Segment i takes line 4+3i (its start: coordinate row 2i and the start's
   * label), line 5+3i (its end: row 2i+1 and the end's label) and the empty
   * line 6+3i.
   */
  lemma KpointsLinesAt(gridSize: int, path: seq<Segment>, rows: seq<Vec>, i: nat)
    requires |rows| == 2 * |path| && i < |path|
    ensures var lines := KpointsLines(gridSize, Flatten(path), rows);
      6 + 3 * i < |lines| &&
      lines[4 + 3 * i..7 + 3 * i] == [Point(rows[2 * i], path[i].0), Point(rows[2 * i + 1], path[i].1), Blank]
  {
    var points := PointLines(rows, Flatten(path));
    FlattenAt(path, i);
    SpacedAt(points, |path|, i);
    SliceAfter(Header(gridSize), Spaced(points, 2 * |path|), 3 * i, 3);
  }

  /** A slice of the part after a prefix, found at the prefix's length onward. */
  lemma SliceAfter<T>(prefix: seq<T>, rest: seq<T>, k: nat, n: nat)
    requires k + n <= |rest|
    ensures (prefix + rest)[|prefix| + k..|prefix| + k + n] == rest[k..k + n]
  {
  }

  /** When every row has three coordinates, every point line of the file can be formatted. */
  lemma KpointsLinesFormattable(gridSize: int, labels: seq<string>, rows: seq<Vec>)
    requires |rows| == |labels| && forall m :: 0 <= m < |rows| ==> |rows[m]| == 3
    ensures Formattable(KpointsLines(gridSize, labels, rows))
  {
    SpacedPoints(PointLines(rows, labels), |labels|);
  }

  /** Every point line of `Spaced(points, n)` is one of the first n points. */
  lemma {:induction false} SpacedPoints(points: seq<KLine>, n: nat)
    requires n <= |points|
    ensures forall l :: l in Spaced(points, n) && l.Point? ==> l in points[..n]
  {
    if n > 0 {
      SpacedPoints(points, n - 1);
      assert points[..n] == points[..n - 1] + [points[n - 1]];
    }
  }

  // ---------------------------------------------------------------------------
  // Reading the path back

  /** The labels of the point lines, in the order they are written. */
  function Labels(lines: seq<KLine>): seq<string>
  {
    if lines == [] then []
    else
      var last := lines[|lines| - 1];
      Labels(lines[..|lines| - 1]) + (if last.Point? then [last.name] else [])
  }

  /** The labels of two pieces of a file, one after the other. */
  lemma {:induction false} LabelsAppend(a: seq<KLine>, b: seq<KLine>)
    ensures Labels(a + b) == Labels(a) + Labels(b)
  {
    if b != [] {
      LabelsAppend(a, b[..|b| - 1]);
      assert (a + b)[..|a + b| - 1] == a + b[..|b| - 1];
    } else {
      assert a + b == a;
    }
  }

  /** Lines without points carry no labels. */
  lemma {:induction false} LabelsNoPoints(lines: seq<KLine>)
    requires forall i :: 0 <= i < |lines| ==> !lines[i].Point?
    ensures Labels(lines) == []
  {
    if lines != [] {
      LabelsNoPoints(lines[..|lines| - 1]);
    }
  }

  /** The point lines of `Spaced(PointLines(rows, labels), n)` carry the first n labels. */
  lemma {:induction false} LabelsSpaced(rows: seq<Vec>, labels: seq<string>, n: nat)
    requires |rows| == |labels| && n <= |labels|
    ensures Labels(Spaced(PointLines(rows, labels), n)) == labels[..n]
  {
    if n > 0 {
      var points := PointLines(rows, labels);
      var blank := if (n - 1) % 2 == 1 then [Blank] else [];
      LabelsSpaced(rows, labels, n - 1);
      LabelsAppend(Spaced(points, n - 1) + [points[n - 1]], blank);
      LabelsAppend(Spaced(points, n - 1), [points[n - 1]]);
      assert Labels(blank) == [];
      assert Labels([points[n - 1]]) == [labels[n - 1]];
      assert labels[..n] == labels[..n - 1] + [labels[n - 1]];
    }
  }

  /** The labels written, paired up in order, give back the path: the file determines the path. */
  lemma KpointsPathRoundTrip(gridSize: int, path: seq<Segment>, rows: seq<Vec>)
    requires |rows| == 2 * |path|
    ensures var written := Labels(KpointsLines(gridSize, Flatten(path), rows));
      written == Flatten(path) && |written| % 2 == 0 && Pairs(written) == path
  {
    var labels := Flatten(path);
    LabelsAppend(Header(gridSize), Spaced(PointLines(rows, labels), |labels|));
    LabelsNoPoints(Header(gridSize));
    LabelsSpaced(rows, labels, |labels|);
    assert labels[..|labels|] == labels;
    FlattenPairs(path);
  }

  /** Lines 48-81 of the script: the structure read from the POSCAR. */
  method ReadStructure(poscar: seq<seq<string>>, parse: string -> real, parseInt: string -> int)
    returns (cell: array2<real>, positions: array2<real>, numbers: array<nat>)
    requires CellReadable(poscar) && CountsReadable(poscar, parseInt)
    requires PositionsReadable(poscar, Total(AtomCounts(poscar, parseInt)))
    ensures cell.Length0 == 3 && cell.Length1 == 3
    ensures forall i :: 0 <= i < 3 ==> Row(cell, i) == CellRow(poscar, parse, i)
    ensures numbers.Length == Total(AtomCounts(poscar, parseInt))
    ensures numbers[..] == SpeciesNumbers(AtomCounts(poscar, parseInt))
    ensures positions.Length0 == numbers.Length && positions.Length1 == 3
    ensures forall j :: 0 <= j < numbers.Length ==>
      Row(positions, j) == PositionRow(poscar, parse, numbers.Length, j)
  {
    cell := ReadCell(poscar, parse);
    var atoms := AtomCounts(poscar, parseInt);
    positions := ReadPositions(poscar, parse, Total(atoms));
    numbers := Numbers(atoms);
    SpeciesNumbersLength(atoms);
  }

  /** The path's labels, their coordinates, the lines written for them and the text of those lines. */
  method WritePath(gridSize: int, path: seq<Segment>, pointCoords: map<string, Vec>, supercell: Matrix,
                   fmt: real -> string) returns (lines: seq<KLine>, text: seq<string>)
    requires CoordsFit(Flatten(path), pointCoords, supercell)
    ensures lines == KpointsLines(gridSize, Flatten(path), CoordRows(Flatten(path), pointCoords, supercell))
    ensures Formattable(lines) && text == Text(lines, fmt)
  {
    var pathArray := PathArray(path);
    var coordMatrix := CoordMatrix(pathArray, pointCoords, supercell);
    lines := WriteKpoints(gridSize, coordMatrix, pathArray);
    assert Rows(coordMatrix) == CoordRows(Flatten(path), pointCoords, supercell);
    KpointsLinesFormattable(gridSize, Flatten(path), Rows(coordMatrix));
    text := Text(lines, fmt);
  }

  /**
   * The whole script: the structure read from the POSCAR, then the KPOINTS
   * lines for the path the symmetry-path finder returns for it (given here),
   * whose labels have the given coordinates.
   */
  method Kpath(poscar: seq<seq<string>>, parse: string -> real, parseInt: string -> int, gridSize: int,
               path: seq<Segment>, pointCoords: map<string, Vec>, supercell: Matrix, fmt: real -> string)
    returns (cell: array2<real>, positions: array2<real>, numbers: array<nat>, lines: seq<KLine>, text: seq<string>)
    requires CellReadable(poscar) && CountsReadable(poscar, parseInt)
    requires PositionsReadable(poscar, Total(AtomCounts(poscar, parseInt)))
    requires CoordsFit(Flatten(path), pointCoords, supercell)
    ensures cell.Length0 == 3 && cell.Length1 == 3
    ensures forall i :: 0 <= i < 3 ==> Row(cell, i) == CellRow(poscar, parse, i)
    ensures numbers[..] == SpeciesNumbers(AtomCounts(poscar, parseInt))
    ensures positions.Length0 == numbers.Length == Total(AtomCounts(poscar, parseInt)) && positions.Length1 == 3
    ensures forall j :: 0 <= j < numbers.Length ==>
      Row(positions, j) == PositionRow(poscar, parse, numbers.Length, j)
    ensures lines == KpointsLines(gridSize, Flatten(path), CoordRows(Flatten(path), pointCoords, supercell))
    ensures Formattable(lines) && text == Text(lines, fmt)
  {
    cell, positions, numbers := ReadStructure(poscar, parse, parseInt);
    lines, text := WritePath(gridSize, path, pointCoords, supercell, fmt);
  }
}
