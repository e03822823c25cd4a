/**
 * What `_readFatBands` (build/lib/pyprocar/io/lobster.py) writes: every
 * FATBAND file fills one (atom, orbital) column of `spd` and the band
 * energies, k-point block by k-point block and band line by band line, and the
 * totals of `spd` are recomputed after each file.
 *
 * A file is taken already parsed: the fields of its `# FATBAND for` header,
 * its `NBANDS` value, and per `# K-Point` block the three header coordinates
 * and the numbers of every band line (`split('\n')[1:-1]`).
 */
module LobsterFatbands {
  import opened Common
  import opened LobsterSpd
  import opened LobsterKpoints

  type BandLine = seq<real>

  datatype KBlock = KBlock(kpoint: Vec, lines: seq<BandLine>)

  datatype FatbandFile = FatbandFile(info: seq<string>, nbands: nat, blocks: seq<KBlock>)

  /** The array `bands` of shape (nk, nb, ns). */
  datatype Bands = Bands(nk: nat, nb: nat, ns: nat, energies: seq<seq<seq<real>>>)
  {
    predicate Valid()
    {
      |energies| == nk &&
      (forall k :: 0 <= k < nk ==> |energies[k]| == nb) &&
      (forall k, b :: 0 <= k < nk && 0 <= b < nb ==> |energies[k][b]| == ns)
    }
  }

  function ZeroBands(nk: nat, nb: nat, ns: nat): (r: Bands)
    ensures r.Valid() && r.nk == nk && r.nb == nb && r.ns == ns
    ensures forall k, b, s :: 0 <= k < nk && 0 <= b < nb && 0 <= s < ns ==> r.energies[k][b][s] == 0.0
  {
    Bands(nk, nb, ns, seq(nk, k => seq(nb, b => seq(ns, s => 0.0))))
  }

  /** `bands[k, b, s] = v`. */
  function SetBand(t: Bands, k: nat, b: nat, s: nat, v: real): (r: Bands)
    requires t.Valid() && k < t.nk && b < t.nb && s < t.ns
    ensures r.Valid() && r.nk == t.nk && r.nb == t.nb && r.ns == t.ns
  {
    var c := t.energies;
    t.(energies := c[k := c[k][b := c[k][b][s := v]]])
  }

  /** Entry (k, b, s) of the band energies. */
  function Energy(t: Bands, k: nat, b: nat, s: nat): real
    requires t.Valid() && k < t.nk && b < t.nb && s < t.ns
  {
    t.energies[k][b][s]
  }

  /**
   * What the loop reads of a block's lines does not run off the block: with two
   * spins line b (b < nb) is paired with line b + nb, so a non-empty block holds
   * at least 2 nb lines; otherwise every line is a band, so there are at most nb
   * of them. Each line read has its energy (field 1) and weight (field 2).
   */
  predicate LinesFit(lines: seq<BandLine>, nb: nat, ns: nat)
  {
    if ns == 2 then
      (|lines| == 0 || |lines| >= 2 * nb) && forall b :: 0 <= b < |lines| && b < 2 * nb ==> |lines[b]| >= 3
    else
      |lines| <= nb && forall b :: 0 <= b < |lines| ==> |lines[b]| >= 3
  }

  /** Band line b writes spin s: spins 0 and 1 for the first nb lines with two spins, spin 0 otherwise. */
  predicate Writes(ns: nat, nb: nat, b: nat, s: nat)
  {
    if ns == 2 then b < nb && s < 2 else s == 0
  }

  /** Field `field` of the line that band line b gives to spin s: line b itself, or its partner b + nb for spin 1. */
  function Field(lines: seq<BandLine>, nb: nat, ns: nat, b: nat, s: nat, field: nat): real
    requires b < |lines| && LinesFit(lines, nb, ns) && Writes(ns, nb, b, s) && 1 <= field <= 2
  {
    if s == 0 then lines[b][field] else lines[b + nb][field]
  }

  /** An `spd` array the fill can write: it has its total row and column and a spin 0. */
  predicate Writable(t: Spd)
  {
    t.HasTotals() && t.ns >= 1
  }

  predicate WritableBands(t: Bands)
  {
    t.Valid() && t.ns >= 1
  }

  // ---------------------------------------------------------------------------
  // The weights

  /** The `spd` writes of the band-line loop body for line `iband` of block `ik`, into column (a, o). */
  function WriteLine(t: Spd, lines: seq<BandLine>, ik: nat, iband: nat, a: nat, o: nat): (r: Spd)
    requires Writable(t) && ik < t.nk && a < t.nrows && o < t.ncols
    requires iband < |lines| && LinesFit(lines, t.nb, t.ns)
    ensures Writable(r) && r.nk == t.nk && r.nb == t.nb && r.ns == t.ns && r.nrows == t.nrows && r.ncols == t.ncols
  {
    if t.ns == 2 then
      if iband < t.nb then
        SetEntry(SetEntry(t, ik, iband, 0, a, o, lines[iband][2]), ik, iband, 1, a, o, lines[iband + t.nb][2])
      else t
    else
      SetEntry(t, ik, iband, 0, a, o, lines[iband][2])
  }

  /** The band-line loop of block `ik` after its first n lines. */
  function WriteLines(t: Spd, lines: seq<BandLine>, ik: nat, n: nat, a: nat, o: nat): (r: Spd)
    requires Writable(t) && ik < t.nk && a < t.nrows && o < t.ncols
    requires n <= |lines| && LinesFit(lines, t.nb, t.ns)
    ensures Writable(r) && r.nk == t.nk && r.nb == t.nb && r.ns == t.ns && r.nrows == t.nrows && r.ncols == t.ncols
  {
    if n == 0 then t else WriteLine(WriteLines(t, lines, ik, n - 1, a, o), lines, ik, n - 1, a, o)
  }

  predicate BlocksFit(blocks: seq<KBlock>, nk: nat, nb: nat, ns: nat)
  {
    |blocks| <= nk && forall ik :: 0 <= ik < |blocks| ==> LinesFit(blocks[ik].lines, nb, ns)
  }

  /** The k-point loop over a file's blocks after its first m blocks. */
  function WriteBlocks(t: Spd, blocks: seq<KBlock>, m: nat, a: nat, o: nat): (r: Spd)
    requires Writable(t) && a < t.nrows && o < t.ncols
    requires m <= |blocks| && BlocksFit(blocks, t.nk, t.nb, t.ns)
    ensures Writable(r) && r.nk == t.nk && r.nb == t.nb && r.ns == t.ns && r.nrows == t.nrows && r.ncols == t.ncols
  {
    if m == 0 then t
    else WriteLines(WriteBlocks(t, blocks, m - 1, a, o), blocks[m - 1].lines, m - 1, |blocks[m - 1].lines|, a, o)
  }

  /** One band line sets the entries it writes to its weights and leaves every other entry alone. */
  lemma WriteLineAt(t: Spd, lines: seq<BandLine>, ik: nat, i: nat, a: nat, o: nat,
                    k: nat, b: nat, s: nat, a': nat, o': nat)
    requires Writable(t) && ik < t.nk && a < t.nrows && o < t.ncols
    requires i < |lines| && LinesFit(lines, t.nb, t.ns)
    requires k < t.nk && b < t.nb && s < t.ns && a' < t.nrows && o' < t.ncols
    ensures At(WriteLine(t, lines, ik, i, a, o), k, b, s, a', o') ==
      if k == ik && b == i && a' == a && o' == o && Writes(t.ns, t.nb, b, s)
      then Field(lines, t.nb, t.ns, b, s, 2)
      else At(t, k, b, s, a', o')
  {
    if t.ns == 2 {
      if i < t.nb {
        var mid := SetEntry(t, ik, i, 0, a, o, lines[i][2]);
        SetEntryAt(t, ik, i, 0, a, o, lines[i][2], k, b, s, a', o');
        SetEntryAt(mid, ik, i, 1, a, o, lines[i + t.nb][2], k, b, s, a', o');
      }
    } else {
      SetEntryAt(t, ik, i, 0, a, o, lines[i][2], k, b, s, a', o');
    }
  }

  /**
   * After the first n lines of block ik, an entry in column (a, o), row ik and
   * a band b < n that line b writes holds that line's weight; every other entry
   * is as it was.
   */
  lemma {:induction false} WriteLinesAt(t: Spd, lines: seq<BandLine>, ik: nat, n: nat, a: nat, o: nat,
                                        k: nat, b: nat, s: nat, a': nat, o': nat)
    requires Writable(t) && ik < t.nk && a < t.nrows && o < t.ncols
    requires n <= |lines| && LinesFit(lines, t.nb, t.ns)
    requires k < t.nk && b < t.nb && s < t.ns && a' < t.nrows && o' < t.ncols
    ensures At(WriteLines(t, lines, ik, n, a, o), k, b, s, a', o') ==
      if k == ik && b < n && a' == a && o' == o && Writes(t.ns, t.nb, b, s)
      then Field(lines, t.nb, t.ns, b, s, 2)
      else At(t, k, b, s, a', o')
  {
    if n > 0 {
      var prev := WriteLines(t, lines, ik, n - 1, a, o);
      assert WriteLines(t, lines, ik, n, a, o) == WriteLine(prev, lines, ik, n - 1, a, o);
      WriteLinesAt(t, lines, ik, n - 1, a, o, k, b, s, a', o');
      WriteLineAt(prev, lines, ik, n - 1, a, o, k, b, s, a', o');
    }
  }

  /**
   * After a file's first m blocks, an entry of column (a, o) in a block k < m
   * holds the weight of the line of block k that writes it; every other entry
   * is as it was.
   */
  lemma {:induction false} WriteBlocksAt(t: Spd, blocks: seq<KBlock>, m: nat, a: nat, o: nat,
                                         k: nat, b: nat, s: nat, a': nat, o': nat)
    requires Writable(t) && a < t.nrows && o < t.ncols
    requires m <= |blocks| && BlocksFit(blocks, t.nk, t.nb, t.ns)
    requires k < t.nk && b < t.nb && s < t.ns && a' < t.nrows && o' < t.ncols
    ensures At(WriteBlocks(t, blocks, m, a, o), k, b, s, a', o') ==
      if k < m && b < |blocks[k].lines| && a' == a && o' == o && Writes(t.ns, t.nb, b, s)
      then Field(blocks[k].lines, t.nb, t.ns, b, s, 2)
      else At(t, k, b, s, a', o')
  {
    if m > 0 {
      var prev := WriteBlocks(t, blocks, m - 1, a, o);
      WriteBlocksAt(t, blocks, m - 1, a, o, k, b, s, a', o');
      WriteLinesAt(prev, blocks[m - 1].lines, m - 1, |blocks[m - 1].lines|, a, o, k, b, s, a', o');
    }
  }

  // ---------------------------------------------------------------------------
  // The energies

  /** The `bands` writes of the band-line loop body for line `iband` of block `ik`. */
  function WriteLineBands(t: Bands, lines: seq<BandLine>, ik: nat, iband: nat): (r: Bands)
    requires WritableBands(t) && ik < t.nk && iband < |lines| && LinesFit(lines, t.nb, t.ns)
    ensures WritableBands(r) && r.nk == t.nk && r.nb == t.nb && r.ns == t.ns
  {
    if t.ns == 2 then
      if iband < t.nb then
        SetBand(SetBand(t, ik, iband, 0, lines[iband][1]), ik, iband, 1, lines[iband + t.nb][1])
      else t
    else
      SetBand(t, ik, iband, 0, lines[iband][1])
  }

  function WriteLinesBands(t: Bands, lines: seq<BandLine>, ik: nat, n: nat): (r: Bands)
    requires WritableBands(t) && ik < t.nk && n <= |lines| && LinesFit(lines, t.nb, t.ns)
    ensures WritableBands(r) && r.nk == t.nk && r.nb == t.nb && r.ns == t.ns
  {
    if n == 0 then t else WriteLineBands(WriteLinesBands(t, lines, ik, n - 1), lines, ik, n - 1)
  }

  function WriteBlocksBands(t: Bands, blocks: seq<KBlock>, m: nat): (r: Bands)
    requires WritableBands(t) && m <= |blocks| && BlocksFit(blocks, t.nk, t.nb, t.ns)
    ensures WritableBands(r) && r.nk == t.nk && r.nb == t.nb && r.ns == t.ns
  {
    if m == 0 then t
    else WriteLinesBands(WriteBlocksBands(t, blocks, m - 1), blocks[m - 1].lines, m - 1, |blocks[m - 1].lines|)
  }

  /** Line b of block ik gives the energy of band b at k-point ik (and of spin 1 through its partner). */
  lemma {:induction false} WriteLinesBandsAt(t: Bands, lines: seq<BandLine>, ik: nat, n: nat, k: nat, b: nat, s: nat)
    requires WritableBands(t) && ik < t.nk && n <= |lines| && LinesFit(lines, t.nb, t.ns)
    requires k < t.nk && b < t.nb && s < t.ns
    ensures Energy(WriteLinesBands(t, lines, ik, n), k, b, s) ==
      if k == ik && b < n && Writes(t.ns, t.nb, b, s) then Field(lines, t.nb, t.ns, b, s, 1) else Energy(t, k, b, s)
  {
    if n > 0 {
      WriteLinesBandsAt(t, lines, ik, n - 1, k, b, s);
    }
  }

  lemma {:induction false} WriteBlocksBandsAt(t: Bands, blocks: seq<KBlock>, m: nat, k: nat, b: nat, s: nat)
    requires WritableBands(t) && m <= |blocks| && BlocksFit(blocks, t.nk, t.nb, t.ns)
    requires k < t.nk && b < t.nb && s < t.ns
    ensures Energy(WriteBlocksBands(t, blocks, m), k, b, s) ==
      if k < m && b < |blocks[k].lines| && Writes(t.ns, t.nb, b, s)
      then Field(blocks[k].lines, t.nb, t.ns, b, s, 1)
      else Energy(t, k, b, s)
  {
    if m > 0 {
      WriteBlocksBandsAt(t, blocks, m - 1, k, b, s);
      WriteLinesBandsAt(WriteBlocksBands(t, blocks, m - 1), blocks[m - 1].lines, m - 1, |blocks[m - 1].lines|, k, b, s);
    }
  }

  // ---------------------------------------------------------------------------
  // The file loop

  /** The atom row a file fills: the last match of its atom, or 0. */
  function Ion(ions: seq<string>, f: FatbandFile): nat
    requires |f.info| >= 2
  {
    IonIndex(ions, f.info[0])
  }

  /** The orbital column a file fills: one past the last match of its orbital, or 0. */
  function Orbital(f: FatbandFile): nat
    requires |f.info| >= 2
  {
    OrbitalIndex(Orbitals, f.info[1])
  }

  /** A file can be read into an array of this shape without an index error. */
  predicate FileFits(t: Spd, ions: seq<string>, f: FatbandFile)
  {
    |f.info| >= 2 && Ion(ions, f) < t.nrows && Orbital(f) < t.ncols && BlocksFit(f.blocks, t.nk, t.nb, t.ns)
  }

  predicate FilesFit(t: Spd, ions: seq<string>, files: seq<FatbandFile>)
  {
    forall i :: 0 <= i < |files| ==> FileFits(t, ions, files[i])
  }

  /** Everything one file writes into `spd`, before the totals. */
  function WriteFile(t: Spd, ions: seq<string>, f: FatbandFile): (r: Spd)
    requires Writable(t) && FileFits(t, ions, f)
    ensures Writable(r) && r.nk == t.nk && r.nb == t.nb && r.ns == t.ns && r.nrows == t.nrows && r.ncols == t.ncols
  {
    WriteBlocks(t, f.blocks, |f.blocks|, Ion(ions, f), Orbital(f))
  }

  /** `spd` after the first n files of the loop: each file's writes, then the totals. */
  function ReadFiles(t: Spd, ions: seq<string>, files: seq<FatbandFile>, n: nat): (r: Spd)
    requires Writable(t) && n <= |files| && FilesFit(t, ions, files)
    ensures Writable(r) && r.nk == t.nk && r.nb == t.nb && r.ns == t.ns && r.nrows == t.nrows && r.ncols == t.ncols
  {
    if n == 0 then t else Totals(WriteFile(ReadFiles(t, ions, files, n - 1), ions, files[n - 1]))
  }

  /** The same writes with no totals in between. */
  function RawFiles(t: Spd, ions: seq<string>, files: seq<FatbandFile>, n: nat): (r: Spd)
    requires Writable(t) && n <= |files| && FilesFit(t, ions, files)
    ensures Writable(r) && r.nk == t.nk && r.nb == t.nb && r.ns == t.ns && r.nrows == t.nrows && r.ncols == t.ncols
  {
    if n == 0 then t else WriteFile(RawFiles(t, ions, files, n - 1), ions, files[n - 1])
  }

  /** `bands` after the first n files. */
  function ReadFilesBands(t: Bands, files: seq<FatbandFile>, n: nat): (r: Bands)
    requires WritableBands(t) && n <= |files|
    requires forall i :: 0 <= i < |files| ==> BlocksFit(files[i].blocks, t.nk, t.nb, t.ns)
    ensures WritableBands(r) && r.nk == t.nk && r.nb == t.nb && r.ns == t.ns
  {
    if n == 0 then t else WriteBlocksBands(ReadFilesBands(t, files, n - 1), files[n - 1].blocks, |files[n - 1].blocks|)
  }

  // ---------------------------------------------------------------------------
  // Totals after every file are the totals of all the writes

  /** Bodies are equal exactly when their entries are. */
  lemma SameBodiesPointwise(t1: Spd, t2: Spd)
    requires t1.HasTotals() && t2.HasTotals()
    requires t1.nk == t2.nk && t1.nb == t2.nb && t1.ns == t2.ns && t1.nrows == t2.nrows && t1.ncols == t2.ncols
    requires forall k, b, s, a, o ::
      (0 <= k < t1.nk && 0 <= b < t1.nb && 0 <= s < t1.ns && 0 <= a < t1.nrows - 1 && 0 <= o < t1.ncols - 1) ==>
      At(t1, k, b, s, a, o) == At(t2, k, b, s, a, o)
    ensures SameBodies(t1, t2)
  {
    forall k, b, s | 0 <= k < t1.nk && 0 <= b < t1.nb && 0 <= s < t1.ns
      ensures Body(t1.cells[k][b][s], t1.ncols) == Body(t2.cells[k][b][s], t2.ncols)
    {
      var m1, m2 := t1.cells[k][b][s], t2.cells[k][b][s];
      forall a | 0 <= a < t1.nrows - 1 ensures m1[a][..t1.ncols - 1] == m2[a][..t1.ncols - 1] {
        forall o | 0 <= o < t1.ncols - 1 ensures m1[a][o] == m2[a][o] {
          assert At(t1, k, b, s, a, o) == At(t2, k, b, s, a, o);
        }
      }
    }
  }

  lemma SameBodiesEntries(t1: Spd, t2: Spd, k: nat, b: nat, s: nat, a: nat, o: nat)
    requires t1.HasTotals() && t2.HasTotals() && SameBodies(t1, t2)
    requires k < t1.nk && b < t1.nb && s < t1.ns && a < t1.nrows - 1 && o < t1.ncols - 1
    ensures At(t1, k, b, s, a, o) == At(t2, k, b, s, a, o)
  {
    assert Body(t1.cells[k][b][s], t1.ncols)[a][o] == Body(t2.cells[k][b][s], t2.ncols)[a][o];
  }

  /** Two arrays with the same bodies still have the same bodies after the same file. */
  lemma WriteFileKeepsSameBodies(t1: Spd, t2: Spd, ions: seq<string>, f: FatbandFile)
    requires Writable(t1) && Writable(t2) && SameBodies(t1, t2) && FileFits(t1, ions, f)
    ensures SameBodies(WriteFile(t1, ions, f), WriteFile(t2, ions, f))
  {
    var a, o := Ion(ions, f), Orbital(f);
    var r1, r2 := WriteFile(t1, ions, f), WriteFile(t2, ions, f);
    forall k, b, s, a', o' |
      0 <= k < r1.nk && 0 <= b < r1.nb && 0 <= s < r1.ns && 0 <= a' < r1.nrows - 1 && 0 <= o' < r1.ncols - 1
      ensures At(r1, k, b, s, a', o') == At(r2, k, b, s, a', o')
    {
      WriteBlocksAt(t1, f.blocks, |f.blocks|, a, o, k, b, s, a', o');
      WriteBlocksAt(t2, f.blocks, |f.blocks|, a, o, k, b, s, a', o');
      SameBodiesEntries(t1, t2, k, b, s, a', o');
    }
    SameBodiesPointwise(r1, r2);
  }

  /**
   * Recomputing the totals after every file, as the loop does, gives the same
   * `spd` as writing every file first and computing the totals once, provided
   * the starting array already has its totals (a zero array does).
   */
  lemma {:induction false} TotalsAfterEachFile(t: Spd, ions: seq<string>, files: seq<FatbandFile>, n: nat)
    requires Writable(t) && n <= |files| && FilesFit(t, ions, files)
    requires Totals(t) == t
    ensures ReadFiles(t, ions, files, n) == Totals(RawFiles(t, ions, files, n))
  {
    if n > 0 {
      TotalsAfterEachFile(t, ions, files, n - 1);
      TotalsStep(ReadFiles(t, ions, files, n - 1), RawFiles(t, ions, files, n - 1), ions, files[n - 1]);
    }
  }

  /** The step of the file loop: writing a file over the totals of w and taking the totals is the totals of writing it over w. */
  lemma TotalsStep(r: Spd, w: Spd, ions: seq<string>, f: FatbandFile)
    requires Writable(w) && r == Totals(w) && FileFits(w, ions, f)
    ensures Writable(r) && FileFits(r, ions, f)
    ensures Totals(WriteFile(r, ions, f)) == Totals(WriteFile(w, ions, f))
  {
    TensorTotalsKeepBodies(w);
    WriteFileKeepsSameBodies(r, w, ions, f);
    TensorTotalsDependOnlyOnBodies(WriteFile(r, ions, f), WriteFile(w, ions, f));
  }

  /** After any number of files the totals are consistent: recomputing them changes nothing. */
  lemma ReadFilesHasTotals(t: Spd, ions: seq<string>, files: seq<FatbandFile>, n: nat)
    requires Writable(t) && n <= |files| && FilesFit(t, ions, files)
    requires Totals(t) == t
    ensures Totals(ReadFiles(t, ions, files, n)) == ReadFiles(t, ions, files, n)
  {
    TotalsAfterEachFile(t, ions, files, n);
    TensorTotalsIdempotent(RawFiles(t, ions, files, n));
  }
}
