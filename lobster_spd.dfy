/**
 * The orbital-projection tensor `spd` that the Lobster parser fills from the
 * FATBAND files (build/lib/pyprocar/io/lobster.py), its total row and column,
 * and its rearrangement into the `projected` layout of a band structure.
 *
 * `spd` has shape (nkpoints, nbands, nspin, natoms + 1, norbitals + 2): for
 * every k-point, band and spin a matrix whose rows are the atoms plus a total
 * row and whose columns are an unused column 0, one column per orbital and a
 * total column.
 */
module LobsterSpd {
  import opened Common

  /** A numpy array of shape (nk, nb, ns, nrows, ncols), stored as nested sequences. */
  datatype Spd = Spd(nk: nat, nb: nat, ns: nat, nrows: nat, ncols: nat, cells: seq<seq<seq<Matrix>>>)
  {
    predicate Valid()
    {
      |cells| == nk &&
      (forall k :: 0 <= k < nk ==> |cells[k]| == nb) &&
      (forall k, b :: 0 <= k < nk && 0 <= b < nb ==> |cells[k][b]| == ns) &&
      (forall k, b, s :: 0 <= k < nk && 0 <= b < nb && 0 <= s < ns ==> MatrixShape(cells[k][b][s], nrows, ncols))
    }

    /** The tensor has a total row (after the atoms) and a total column (after the orbitals). */
    predicate HasTotals()
    {
      Valid() && nrows >= 1 && ncols >= 2
    }
  }

  /** The last row of a matrix (the total row of an spd matrix). */
  function LastRow(m: Matrix): seq<real>
    requires |m| >= 1
  {
    m[|m| - 1]
  }

  predicate MatrixShape(m: Matrix, rows: nat, cols: nat)
  {
    |m| == rows && Rectangular(m, cols)
  }

  /** `np.zeros(shape)`. */
  function Zeros(nk: nat, nb: nat, ns: nat, nrows: nat, ncols: nat): (t: Spd)
    ensures t.Valid() && t.nk == nk && t.nb == nb && t.ns == ns && t.nrows == nrows && t.ncols == ncols
    ensures forall k, b, s, a, o :: 0 <= k < nk && 0 <= b < nb && 0 <= s < ns && 0 <= a < nrows && 0 <= o < ncols ==>
      t.cells[k][b][s][a][o] == 0.0
  {
    Spd(nk, nb, ns, nrows, ncols,
      seq(nk, k => seq(nb, b => seq(ns, s => seq(nrows, a => seq(ncols, o => 0.0))))))
  }

  // ---------------------------------------------------------------------------
  // Totals of one (k-point, band, spin) matrix

  /** `spd[..., -1] = sum(spd[..., 1:-1])`: every row's last column becomes the sum of its orbital columns. */
  function RowTotals(m: Matrix, ncols: nat): (r: Matrix)
    requires ncols >= 2 && Rectangular(m, ncols)
    ensures |r| == |m| && Rectangular(r, ncols)
    ensures forall a, o :: 0 <= a < |m| && 0 <= o < ncols - 1 ==> r[a][o] == m[a][o]
    ensures forall a :: 0 <= a < |m| ==> r[a][ncols - 1] == SumReal(m[a][1..ncols - 1])
  {
    seq(|m|, a requires 0 <= a < |m| => m[a][..ncols - 1] + [SumReal(m[a][1..ncols - 1])])
  }

  /** `spd[..., -1, :] = sum(spd[..., 0:-1, :])`: the last row becomes the column sums of the other rows. */
  function AtomTotals(m: Matrix, ncols: nat): (r: Matrix)
    requires |m| >= 1 && Rectangular(m, ncols)
    ensures |r| == |m| && Rectangular(r, ncols)
    ensures forall a :: 0 <= a < |m| - 1 ==> r[a] == m[a]
    ensures forall o :: 0 <= o < ncols ==> LastRow(r)[o] == SumReal(Column(m[..|m| - 1], o))
  {
    var last := |m| - 1;
    m[..last] + [seq(ncols, o requires 0 <= o < ncols => SumReal(Column(m[..last], o)))]
  }

  /** `spd[..., -1, 0] = 0`. */
  function ClearCorner(m: Matrix, ncols: nat): (r: Matrix)
    requires |m| >= 1 && ncols >= 1 && Rectangular(m, ncols)
    ensures |r| == |m| && Rectangular(r, ncols)
    ensures forall a :: 0 <= a < |m| - 1 ==> r[a] == m[a]
    ensures r[|m| - 1][0] == 0.0
    ensures forall o :: 1 <= o < ncols ==> LastRow(r)[o] == LastRow(m)[o]
  {
    m[|m| - 1 := m[|m| - 1][0 := 0.0]]
  }

  /** The three total statements of `_readFatBands`, in order, on one matrix. */
  function WithTotals(m: Matrix, ncols: nat): (r: Matrix)
    requires |m| >= 1 && ncols >= 2 && Rectangular(m, ncols)
    ensures |r| == |m| && Rectangular(r, ncols)
  {
    ClearCorner(AtomTotals(RowTotals(m, ncols), ncols), ncols)
  }

  /** The atom rows without their total column: the entries the FATBAND files fill. */
  function Body(m: Matrix, ncols: nat): seq<seq<real>>
    requires |m| >= 1 && ncols >= 1 && Rectangular(m, ncols)
  {
    seq(|m| - 1, a requires 0 <= a < |m| - 1 => m[a][..ncols - 1])
  }

  /**
   * What the totals are: each atom's total column sums its orbital columns, the
   * total row sums the atoms column by column, and the total row's column 0 is 0.
   */
  lemma TotalsClosedForm(m: Matrix, ncols: nat)
    requires |m| >= 1 && ncols >= 2 && Rectangular(m, ncols)
    ensures var r := WithTotals(m, ncols);
      var atoms := |m| - 1;
      (forall a, o :: 0 <= a < atoms && 0 <= o < ncols - 1 ==> r[a][o] == m[a][o]) &&
      (forall a :: 0 <= a < atoms ==> r[a][ncols - 1] == SumReal(m[a][1..ncols - 1])) &&
      r[atoms][0] == 0.0 &&
      (forall o :: 1 <= o < ncols - 1 ==> r[atoms][o] == SumReal(Column(m[..atoms], o))) &&
      r[atoms][ncols - 1] == SumReal(Column(RowTotals(m, ncols)[..atoms], ncols - 1))
  {
    var atoms := |m| - 1;
    var m1 := RowTotals(m, ncols);
    forall o | 1 <= o < ncols - 1 ensures Column(m1[..atoms], o) == Column(m[..atoms], o) {
    }
  }

  /** The totals are a function of the body alone. */
  lemma TotalsDependOnlyOnBody(m1: Matrix, m2: Matrix, ncols: nat)
    requires |m1| == |m2| >= 1 && ncols >= 2 && Rectangular(m1, ncols) && Rectangular(m2, ncols)
    requires Body(m1, ncols) == Body(m2, ncols)
    ensures WithTotals(m1, ncols) == WithTotals(m2, ncols)
  {
    var atoms := |m1| - 1;
    assert forall a :: 0 <= a < atoms ==> m1[a][..ncols - 1] == m2[a][..ncols - 1] by {
      forall a | 0 <= a < atoms ensures m1[a][..ncols - 1] == m2[a][..ncols - 1] {
        assert Body(m1, ncols)[a] == Body(m2, ncols)[a];
      }
    }
    var r1, r2 := RowTotals(m1, ncols), RowTotals(m2, ncols);
    assert r1[..atoms] == r2[..atoms] by {
      forall a | 0 <= a < atoms ensures r1[a] == r2[a] {
        assert m1[a][1..ncols - 1] == m1[a][..ncols - 1][1..];
        assert m2[a][1..ncols - 1] == m2[a][..ncols - 1][1..];
      }
    }
    var s1, s2 := AtomTotals(r1, ncols), AtomTotals(r2, ncols);
    assert s1[..atoms] == s2[..atoms];
    assert s1[atoms] == s2[atoms];
    assert s1 == s2 by {
      forall a | 0 <= a < |s1| ensures s1[a] == s2[a] {
        if a < atoms {
          assert s1[a] == s1[..atoms][a] && s2[a] == s2[..atoms][a];
        }
      }
    }
  }

  /** The totals leave the body as it was. */
  lemma TotalsKeepBody(m: Matrix, ncols: nat)
    requires |m| >= 1 && ncols >= 2 && Rectangular(m, ncols)
    ensures Body(WithTotals(m, ncols), ncols) == Body(m, ncols)
  {
    var r := WithTotals(m, ncols);
    TotalsClosedForm(m, ncols);
    forall a | 0 <= a < |m| - 1 ensures r[a][..ncols - 1] == m[a][..ncols - 1] {
    }
  }

  /** Recomputing the totals changes nothing. */
  lemma TotalsIdempotent(m: Matrix, ncols: nat)
    requires |m| >= 1 && ncols >= 2 && Rectangular(m, ncols)
    ensures WithTotals(WithTotals(m, ncols), ncols) == WithTotals(m, ncols)
  {
    TotalsKeepBody(m, ncols);
    TotalsDependOnlyOnBody(WithTotals(m, ncols), m, ncols);
  }

  /** The totals of an all-zero matrix are zero, so an untouched tensor already has its totals. */
  lemma TotalsOfZeros(m: Matrix, ncols: nat)
    requires |m| >= 1 && ncols >= 2 && Rectangular(m, ncols)
    requires forall a, o :: 0 <= a < |m| && 0 <= o < ncols ==> m[a][o] == 0.0
    ensures WithTotals(m, ncols) == m
  {
    var atoms := |m| - 1;
    var r := WithTotals(m, ncols);
    TotalsClosedForm(m, ncols);
    forall a | 0 <= a < atoms ensures SumReal(m[a][1..ncols - 1]) == 0.0 {
      SumRealZeros(m[a][1..ncols - 1]);
    }
    forall o | 1 <= o < ncols - 1 ensures SumReal(Column(m[..atoms], o)) == 0.0 {
      SumRealZeros(Column(m[..atoms], o));
    }
    var m1 := RowTotals(m, ncols);
    SumRealZeros(Column(m1[..atoms], ncols - 1));
    forall a | 0 <= a < |m| ensures r[a] == m[a] {
    }
  }

  // ---------------------------------------------------------------------------
  // Totals of the whole tensor

  /** The three total statements applied to every (k-point, band, spin) matrix. */
  function Totals(t: Spd): (r: Spd)
    requires t.HasTotals()
    ensures r.HasTotals() && r.nk == t.nk && r.nb == t.nb && r.ns == t.ns && r.nrows == t.nrows && r.ncols == t.ncols
    ensures forall k, b, s :: 0 <= k < t.nk && 0 <= b < t.nb && 0 <= s < t.ns ==>
      r.cells[k][b][s] == WithTotals(t.cells[k][b][s], t.ncols)
  {
    Spd(t.nk, t.nb, t.ns, t.nrows, t.ncols,
      seq(t.nk, k requires 0 <= k < t.nk => seq(t.nb, b requires 0 <= b < t.nb => seq(t.ns, s requires 0 <= s < t.ns =>
        WithTotals(t.cells[k][b][s], t.ncols)))))
  }

  /** Two tensors of one shape with the same bodies everywhere. */
  predicate SameBodies(t1: Spd, t2: Spd)
    requires t1.HasTotals() && t2.HasTotals()
  {
    t1.nk == t2.nk && t1.nb == t2.nb && t1.ns == t2.ns && t1.nrows == t2.nrows && t1.ncols == t2.ncols &&
    forall k, b, s :: 0 <= k < t1.nk && 0 <= b < t1.nb && 0 <= s < t1.ns ==>
      Body(t1.cells[k][b][s], t1.ncols) == Body(t2.cells[k][b][s], t2.ncols)
  }

  /** Two tensors of one shape whose matrices agree are equal. */
  lemma SpdExtensionality(t1: Spd, t2: Spd)
    requires t1.Valid() && t2.Valid()
    requires t1.nk == t2.nk && t1.nb == t2.nb && t1.ns == t2.ns && t1.nrows == t2.nrows && t1.ncols == t2.ncols
    requires forall k, b, s :: 0 <= k < t1.nk && 0 <= b < t1.nb && 0 <= s < t1.ns ==>
      t1.cells[k][b][s] == t2.cells[k][b][s]
    ensures t1 == t2
  {
    forall k | 0 <= k < t1.nk ensures t1.cells[k] == t2.cells[k] {
      forall b | 0 <= b < t1.nb ensures t1.cells[k][b] == t2.cells[k][b] {
      }
    }
  }

  lemma TensorTotalsDependOnlyOnBodies(t1: Spd, t2: Spd)
    requires t1.HasTotals() && t2.HasTotals() && SameBodies(t1, t2)
    ensures Totals(t1) == Totals(t2)
  {
    forall k, b, s | 0 <= k < t1.nk && 0 <= b < t1.nb && 0 <= s < t1.ns
      ensures Totals(t1).cells[k][b][s] == Totals(t2).cells[k][b][s]
    {
      TotalsDependOnlyOnBody(t1.cells[k][b][s], t2.cells[k][b][s], t1.ncols);
    }
    SpdExtensionality(Totals(t1), Totals(t2));
  }

  lemma TensorTotalsKeepBodies(t: Spd)
    requires t.HasTotals()
    ensures SameBodies(Totals(t), t)
  {
    forall k, b, s | 0 <= k < t.nk && 0 <= b < t.nb && 0 <= s < t.ns
      ensures Body(Totals(t).cells[k][b][s], t.ncols) == Body(t.cells[k][b][s], t.ncols)
    {
      TotalsKeepBody(t.cells[k][b][s], t.ncols);
    }
  }

  /** Recomputing the totals of the whole tensor after each file is idempotent. */
  lemma TensorTotalsIdempotent(t: Spd)
    requires t.HasTotals()
    ensures Totals(Totals(t)) == Totals(t)
  {
    TensorTotalsKeepBodies(t);
    TensorTotalsDependOnlyOnBodies(Totals(t), t);
  }

  lemma TensorTotalsOfZeros(nk: nat, nb: nat, ns: nat, nrows: nat, ncols: nat)
    requires nrows >= 1 && ncols >= 2
    ensures Totals(Zeros(nk, nb, ns, nrows, ncols)) == Zeros(nk, nb, ns, nrows, ncols)
  {
    var z := Zeros(nk, nb, ns, nrows, ncols);
    forall k, b, s | 0 <= k < nk && 0 <= b < nb && 0 <= s < ns
      ensures Totals(z).cells[k][b][s] == z.cells[k][b][s]
    {
      TotalsOfZeros(z.cells[k][b][s], ncols);
    }
    SpdExtensionality(Totals(z), z);
  }

  // ---------------------------------------------------------------------------
  // Writing one entry

  /** `spd[k, b, s, a, o] = v`. */
  function SetEntry(t: Spd, k: nat, b: nat, s: nat, a: nat, o: nat, v: real): (r: Spd)
    requires t.Valid() && k < t.nk && b < t.nb && s < t.ns && a < t.nrows && o < t.ncols
    ensures r.Valid() && r.nk == t.nk && r.nb == t.nb && r.ns == t.ns && r.nrows == t.nrows && r.ncols == t.ncols
  {
    var c := t.cells;
    t.(cells := c[k := c[k][b := c[k][b][s := c[k][b][s][a := c[k][b][s][a][o := v]]]]])
  }

  /** Entry (k, b, s, a, o) of the array. */
  function At(t: Spd, k: nat, b: nat, s: nat, a: nat, o: nat): real
    requires t.Valid() && k < t.nk && b < t.nb && s < t.ns && a < t.nrows && o < t.ncols
  {
    t.cells[k][b][s][a][o]
  }

  /** Writing one entry sets that entry and leaves every other one as it was. */
  lemma SetEntryAt(t: Spd, k: nat, b: nat, s: nat, a: nat, o: nat, v: real,
                   k': nat, b': nat, s': nat, a': nat, o': nat)
    requires t.Valid() && k < t.nk && b < t.nb && s < t.ns && a < t.nrows && o < t.ncols
    requires k' < t.nk && b' < t.nb && s' < t.ns && a' < t.nrows && o' < t.ncols
    ensures At(SetEntry(t, k, b, s, a, o, v), k', b', s', a', o') ==
      if k' == k && b' == b && s' == s && a' == a && o' == o then v else At(t, k', b', s', a', o')
  {
  }

  // ---------------------------------------------------------------------------
  // The projected layout

  /** A numpy array of shape (nk, nb, natoms, nprinciples, norbitals, nspins). */
  datatype Projected = Projected(nk: nat, nb: nat, natoms: nat, nprinciples: nat, norbitals: nat, nspins: nat,
                                 values: seq<seq<seq<seq<seq<seq<real>>>>>>)

  /** The spins of one (k-point, band, atom, principal, orbital) entry: the spin axis moved last. */
  function SpinEntries(t: Spd, k: nat, b: nat, a: nat, i: nat, o: nat): (r: seq<real>)
    requires t.HasTotals() && k < t.nk && b < t.nb && a < t.nrows - 1 && o < t.ncols - 2
    ensures |r| == t.ns
    ensures forall s :: 0 <= s < t.ns ==> r[s] == if i == 0 then t.cells[k][b][s][a][o + 1] else 0.0
  {
    seq(t.ns, s requires 0 <= s < t.ns => if i == 0 then t.cells[k][b][s][a][o + 1] else 0.0)
  }

  function OrbitalEntries(t: Spd, k: nat, b: nat, a: nat, i: nat): (r: seq<seq<real>>)
    requires t.HasTotals() && k < t.nk && b < t.nb && a < t.nrows - 1
    ensures |r| == t.ncols - 2
    ensures forall o :: 0 <= o < t.ncols - 2 ==> r[o] == SpinEntries(t, k, b, a, i, o)
  {
    seq(t.ncols - 2, o requires 0 <= o < t.ncols - 2 => SpinEntries(t, k, b, a, i, o))
  }

  function PrincipalEntries(t: Spd, k: nat, b: nat, a: nat, nprinciples: nat): (r: seq<seq<seq<real>>>)
    requires t.HasTotals() && k < t.nk && b < t.nb && a < t.nrows - 1
    ensures |r| == nprinciples
    ensures forall i :: 0 <= i < nprinciples ==> r[i] == OrbitalEntries(t, k, b, a, i)
  {
    seq(nprinciples, i requires 0 <= i < nprinciples => OrbitalEntries(t, k, b, a, i))
  }

  function AtomEntries(t: Spd, k: nat, b: nat, nprinciples: nat): (r: seq<seq<seq<seq<real>>>>)
    requires t.HasTotals() && k < t.nk && b < t.nb
    ensures |r| == t.nrows - 1
    ensures forall a :: 0 <= a < t.nrows - 1 ==> r[a] == PrincipalEntries(t, k, b, a, nprinciples)
  {
    seq(t.nrows - 1, a requires 0 <= a < t.nrows - 1 => PrincipalEntries(t, k, b, a, nprinciples))
  }

  function BandEntries(t: Spd, k: nat, nprinciples: nat): (r: seq<seq<seq<seq<seq<real>>>>>)
    requires t.HasTotals() && k < t.nk
    ensures |r| == t.nb
    ensures forall b :: 0 <= b < t.nb ==> r[b] == AtomEntries(t, k, b, nprinciples)
  {
    seq(t.nb, b requires 0 <= b < t.nb => AtomEntries(t, k, b, nprinciples))
  }

  /** The entries of the projected layout, level by level. */
  function ProjectedValues(t: Spd, nprinciples: nat): (r: seq<seq<seq<seq<seq<seq<real>>>>>>)
    requires t.HasTotals()
    ensures |r| == t.nk
    ensures forall k :: 0 <= k < t.nk ==> r[k] == BandEntries(t, k, nprinciples)
  {
    seq(t.nk, k requires 0 <= k < t.nk => BandEntries(t, k, nprinciples))
  }

  predicate ProjectedShape(p: Projected)
  {
    |p.values| == p.nk &&
    (forall k :: 0 <= k < p.nk ==> |p.values[k]| == p.nb) &&
    (forall k, b :: 0 <= k < p.nk && 0 <= b < p.nb ==> |p.values[k][b]| == p.natoms) &&
    (forall k, b, a :: 0 <= k < p.nk && 0 <= b < p.nb && 0 <= a < p.natoms ==>
      |p.values[k][b][a]| == p.nprinciples) &&
    (forall k, b, a, i :: 0 <= k < p.nk && 0 <= b < p.nb && 0 <= a < p.natoms && 0 <= i < p.nprinciples ==>
      |p.values[k][b][a][i]| == p.norbitals) &&
    (forall k, b, a, i, o ::
      0 <= k < p.nk && 0 <= b < p.nb && 0 <= a < p.natoms && 0 <= i < p.nprinciples && 0 <= o < p.norbitals ==>
      |p.values[k][b][a][i][o]| == p.nspins)
  }

  /** Entry (k, b, a, i, o, s) of the projected layout. */
  predicate ProjectedEntry(p: Projected, t: Spd, k: nat, b: nat, a: nat, i: nat, o: nat, s: nat)
    requires t.HasTotals() && ProjectedShape(p)
    requires k < p.nk && b < p.nb && a < p.natoms && i < p.nprinciples && o < p.norbitals && s < p.nspins
    requires p.nk == t.nk && p.nb == t.nb && p.natoms == t.nrows - 1 && p.norbitals == t.ncols - 2 && p.nspins == t.ns
  {
    p.values[k][b][a][i][o][s] == if i == 0 then t.cells[k][b][s][a][o + 1] else 0.0
  }

  lemma ProjectedValuesCorrect(t: Spd, nprinciples: nat)
    requires t.HasTotals()
    ensures var p := Projected(t.nk, t.nb, t.nrows - 1, nprinciples, t.ncols - 2, t.ns, ProjectedValues(t, nprinciples));
      ProjectedShape(p) &&
      forall k, b, a, i, o, s ::
        (0 <= k < p.nk && 0 <= b < p.nb && 0 <= a < p.natoms && 0 <= i < nprinciples &&
         0 <= o < p.norbitals && 0 <= s < p.nspins) ==> ProjectedEntry(p, t, k, b, a, i, o, s)
  {
    var p := Projected(t.nk, t.nb, t.nrows - 1, nprinciples, t.ncols - 2, t.ns, ProjectedValues(t, nprinciples));
    forall k, b, a, i, o, s | 0 <= k < p.nk && 0 <= b < p.nb && 0 <= a < p.natoms && 0 <= i < nprinciples &&
      0 <= o < p.norbitals && 0 <= s < p.nspins
      ensures ProjectedEntry(p, t, k, b, a, i, o, s)
    {
      assert p.values[k][b][a][i][o] == SpinEntries(t, k, b, a, i, o);
    }
  }

  /**
   * `_spd2projected`: drops the total row, column 0 and the total column, and
   * moves the spin axis last; principal slots other than 0 stay zero.
   */
  function Spd2Projected(spd: Option<Spd>, nprinciples: nat): (r: Option<Projected>)
    requires spd.Some? ==> spd.value.HasTotals() && nprinciples >= 1
    ensures spd.None? <==> r.None?
    ensures spd.Some? ==> var t := spd.value; var p := r.value;
      p.nk == t.nk && p.nb == t.nb && p.natoms == t.nrows - 1 && p.nprinciples == nprinciples &&
      p.norbitals == t.ncols - 2 && p.nspins == t.ns && ProjectedShape(p) &&
      (forall k, b, a, i, o, s ::
        (0 <= k < p.nk && 0 <= b < p.nb && 0 <= a < p.natoms && 0 <= i < nprinciples &&
         0 <= o < p.norbitals && 0 <= s < p.nspins) ==> ProjectedEntry(p, t, k, b, a, i, o, s))
  {
    match spd
    case None => None
    case Some(t) =>
      ProjectedValuesCorrect(t, nprinciples);
      Some(Projected(t.nk, t.nb, t.nrows - 1, nprinciples, t.ncols - 2, t.ns, ProjectedValues(t, nprinciples)))
  }

  /** Tensors that agree on the orbital columns of the atom rows project alike. */
  lemma ProjectionDependsOnOrbitalColumns(t1: Spd, t2: Spd, nprinciples: nat)
    requires t1.HasTotals() && t2.HasTotals()
    requires t1.nk == t2.nk && t1.nb == t2.nb && t1.ns == t2.ns && t1.nrows == t2.nrows && t1.ncols == t2.ncols
    requires forall k, b, s, a, o ::
      (0 <= k < t1.nk && 0 <= b < t1.nb && 0 <= s < t1.ns && 0 <= a < t1.nrows - 1 &&
       1 <= o < t1.ncols - 1) ==> t1.cells[k][b][s][a][o] == t2.cells[k][b][s][a][o]
    ensures ProjectedValues(t1, nprinciples) == ProjectedValues(t2, nprinciples)
  {
    var v1, v2 := ProjectedValues(t1, nprinciples), ProjectedValues(t2, nprinciples);
    var natoms, norbitals := t1.nrows - 1, t1.ncols - 2;
    forall k | 0 <= k < t1.nk ensures v1[k] == v2[k] {
      forall b | 0 <= b < t1.nb ensures v1[k][b] == v2[k][b] {
        forall a | 0 <= a < natoms ensures v1[k][b][a] == v2[k][b][a] {
          forall i | 0 <= i < nprinciples ensures v1[k][b][a][i] == v2[k][b][a][i] {
            forall o | 0 <= o < norbitals ensures v1[k][b][a][i][o] == v2[k][b][a][i][o] {
              assert 1 <= o + 1 < t1.ncols - 1;
            }
          }
        }
      }
    }
  }

  /** The projected tensor never sees the totals: computing them first gives the same projection. */
  lemma ProjectionIgnoresTotals(t: Spd, nprinciples: nat)
    requires t.HasTotals() && nprinciples >= 1
    ensures Spd2Projected(Some(Totals(t)), nprinciples) == Spd2Projected(Some(t), nprinciples)
  {
    var tt := Totals(t);
    forall k, b, s | 0 <= k < t.nk && 0 <= b < t.nb && 0 <= s < t.ns
      ensures forall a, o :: 0 <= a < t.nrows - 1 && 1 <= o < t.ncols - 1 ==>
        tt.cells[k][b][s][a][o] == t.cells[k][b][s][a][o]
    {
      TotalsClosedForm(t.cells[k][b][s], t.ncols);
    }
    ProjectionDependsOnOrbitalColumns(tt, t, nprinciples);
  }
}
