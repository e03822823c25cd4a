/**
 * `LobsterParser` (build/lib/pyprocar/io/lobster.py) as an object whose
 * fields the constructor fills step by step: the high-symmetry points of the
 * `K_POINTS` card, the FATBAND file names, the k-points, band energies and
 * `spd` weights read from those files, the path segments, and the parsed
 * DOSCAR.lobster.
 *
 * The files themselves are inputs: the `K_POINTS` lines split into fields,
 * the two `re.findall` results on lobsterout, the parsed FATBAND files in the
 * order of the file names, and the DOSCAR.lobster lines when that file exists.
 */
module LobsterParsing {
  import opened Common
  import KPaths
  import opened LobsterKpoints
  import opened LobsterSpd
  import opened LobsterFatbands
  import opened LobsterDoscar

  /** The inner loop of `_readFatBands` over `ionsList`: the last position of the file's atom, or 0. */
  method FindIon(ions: seq<string>, currentIon: string) returns (iion: nat)
    ensures iion == IonIndex(ions, currentIon)
  {
    iion := 0;
    for i := 0 to |ions|
      invariant iion == IonIndex(ions[..i], currentIon)
    {
      assert ions[..i + 1][..i] == ions[..i];
      if ions[i] == currentIon {
        iion := i;
      }
    }
    assert ions[..|ions|] == ions;
  }

  /** The inner loop over the orbital names: one past the last position of the token without its first character, or 0. */
  method FindOrbital(orbitals: seq<string>, token: string) returns (iorbital: nat)
    ensures iorbital == OrbitalIndex(orbitals, token)
  {
    var currentOrbital := DropFirst(token);
    iorbital := 0;
    for i := 0 to |orbitals|
      invariant iorbital == OrbitalIndex(orbitals[..i], token)
    {
      assert orbitals[..i + 1][..i] == orbitals[..i];
      if orbitals[i] == currentOrbital {
        iorbital := i + 1;
      }
    }
    assert orbitals[..|orbitals|] == orbitals;
  }

  /** One more line of the `K_POINTS` loop. */
  lemma ScanLinesStep(raw: seq<seq<string>>, parse: string -> real, i: nat)
    requires HasWeights(raw) && i < |raw|
    ensures HasWeights(raw[..i]) && HasWeights(raw[..i + 1])
    ensures var r := ScanLines(raw[..i], parse);
      var x := raw[i];
      var r' := if |x| == 5
        then SpecialKpoints(r.points + [[parse(x[0]), parse(x[1]), parse(x[2])]],
                            r.knames + [RemoveChar(x[4], '!')], r.kticks + [r.tickCount], r.tickCount)
        else r;
      ScanLines(raw[..i + 1], parse) == r'.(tickCount := r.tickCount + if parse(x[3]) == 0.0 then 1 else 0)
  {
    assert raw[..i + 1][..i] == raw[..i];
  }

  /** The shape `_readFatBands` gives `spd`: one row per atom plus the total row, a column per orbital plus the atom and total columns. */
  function ZeroSpd(files: seq<FatbandFile>, nspin: nat, ionsCount: nat): (t: Spd)
    requires |files| >= 1
    ensures Writable(t) || nspin == 0
    ensures t.nk == |files[0].blocks| && t.nb == files[0].nbands && t.ns == nspin
    ensures t.nrows == ionsCount + 1 && t.ncols == |Orbitals| + 2
  {
    Zeros(|files[0].blocks|, files[0].nbands, nspin, ionsCount + 1, |Orbitals| + 2)
  }

  /** The k-points `_readFatBands` takes from the `# K-Point` headers of the first file. */
  function FatbandKpoints(files: seq<FatbandFile>): (k: seq<Vec>)
    requires |files| >= 1
    ensures |k| == |files[0].blocks|
    ensures forall ik :: 0 <= ik < |k| ==> k[ik] == files[0].blocks[ik].kpoint
  {
    seq(|files[0].blocks|, ik requires 0 <= ik < |files[0].blocks| => files[0].blocks[ik].kpoint)
  }

  function ZeroBandsOf(files: seq<FatbandFile>, nspin: nat): (t: Bands)
    requires |files| >= 1
    ensures t.Valid() && t.nk == |files[0].blocks| && t.nb == files[0].nbands && t.ns == nspin
  {
    ZeroBands(|files[0].blocks|, files[0].nbands, nspin)
  }

  /** The FATBAND files can be read without an index error: one per name, and each fits the array the first one sizes. */
  predicate FatbandsReadable(files: seq<FatbandFile>, nfiles: nat, nspin: nat, ionsCount: nat, ions: seq<string>)
  {
    |files| == nfiles && |files| >= 1 && nspin >= 1 && FilesFit(ZeroSpd(files, nspin, ionsCount), ions, files)
  }

  /**
   * What `_getSpecialKpoints` leaves in the high-symmetry points, names, ticks
   * and grids: for `qe` those of the `K_POINTS` scan, `ngrids` from the first
   * `nhigh_sym` lines; for any other code all four are empty.
   */
  predicate SpecialKpointsRead(code: string, raw: seq<seq<string>>, parse: string -> real,
                               points: seq<Vec>, knames: seq<string>, kticks: seq<int>, ngrids: seq<int>)
    requires code == "qe" ==> HasWeights(raw)
  {
    if code == "qe" then
      var r := ScanLines(raw, parse);
      points == r.points && knames == r.knames && kticks == r.kticks &&
      |r.knames| <= |raw| && ngrids == NGrids(raw, parse, |r.knames|)
    else
      points == [] && knames == [] && kticks == [] && ngrids == []
  }

  /**
   * What `_readFileNames` and `_readFatBands` leave: the file names, the
   * k-points of the first FATBAND file, `NBANDS`, and `spd` and `bands` as the
   * file loop fills them from zeros.
   */
  predicate FatbandsRead(dirname: string, nspin: nat, ionsCount: nat, ions: seq<string>, proj: seq<Projection>,
                         files: seq<FatbandFile>, fileNames: seq<string>, ionsList: seq<string>,
                         kpoints: seq<Vec>, bandsCount: nat, spd: Spd, bands: Bands)
  {
    FatbandsReadable(files, |files|, nspin, ionsCount, ions) &&
    fileNames == FileNames(dirname, proj) && ionsList == ions &&
    kpoints == FatbandKpoints(files) && bandsCount == files[0].nbands &&
    spd == ReadFiles(ZeroSpd(files, nspin, ionsCount), ions, files, |files|) &&
    bands == ReadFilesBands(ZeroBandsOf(files, nspin), files, |files|)
  }

  /**
   * What `_createKPath` and the projection leave: the path segments between
   * consecutive ticks with their names, and `projected` made from `spd` with
   * one principal number.
   */
  predicate PathRead(kpoints: seq<Vec>, knames: seq<string>, kticks: seq<int>, specialKpoints: seq<KPaths.PointPair>,
                     modifiedKnames: seq<KPaths.NamePair>, spd: Spd, projected: Option<Projected>)
  {
    |kticks| >= 1 && |knames| == |kticks| && TicksIndex(kticks, |kpoints|) &&
    specialKpoints == PathSegments(kpoints, kticks) &&
    modifiedKnames == SegmentNames(knames, |kticks| - 1) &&
    spd.HasTotals() && projected == Spd2Projected(Some(spd), 1)
  }

  /** The band structure is read only when the `K_POINTS` card gave at least one tick. */
  predicate HasBandStructure(code: string, raw: seq<seq<string>>, parse: string -> real)
    requires code == "qe" ==> HasWeights(raw)
  {
    code == "qe" && |ScanLines(raw, parse).kticks| != 0
  }

  /**
   * The totals `_readFatBands` recomputes after every file are the totals of
   * all the files' writes, so the array it leaves has its totals in place.
   */
  lemma ReadFatBandsTotals(files: seq<FatbandFile>, nspin: nat, ionsCount: nat, ions: seq<string>)
    requires FatbandsReadable(files, |files|, nspin, ionsCount, ions)
    ensures var t := ZeroSpd(files, nspin, ionsCount);
      ReadFiles(t, ions, files, |files|) == Totals(RawFiles(t, ions, files, |files|)) &&
      Totals(ReadFiles(t, ions, files, |files|)) == ReadFiles(t, ions, files, |files|)
  {
    var t := ZeroSpd(files, nspin, ionsCount);
    TensorTotalsOfZeros(t.nk, t.nb, t.ns, t.nrows, t.ncols);
    TotalsAfterEachFile(t, ions, files, |files|);
    ReadFilesHasTotals(t, ions, files, |files|);
  }

  class LobsterParser {
    const dirname: string
    const code: string
    const nspin: nat
    const ionsCount: nat

    var highSymmetryPoints: seq<Vec>
    var knames: seq<string>
    var kticks: seq<int>
    var ngrids: seq<int>

    var fileNames: seq<string>
    var ionsList: seq<string>

    var kpoints: seq<Vec>
    var bandsCount: nat
    var spd: Spd
    var bands: Bands

    var specialKpoints: seq<KPaths.PointPair>
    var modifiedKnames: seq<KPaths.NamePair>

    /** The `projected` array handed to the band structure. */
    var projected: Option<Projected>

    /** The dictionary `_parse_doscar` returns, when DOSCAR.lobster exists. */
    var data: Option<Result<Doscar>>

    /**
     * The constructor: the directory prefix, the special k-points, and, when
     * there are ticks, the file names, the FATBAND contents and the path; then
     * the DOSCAR.lobster file when it exists. `nspin` and `ionsCount` come
     * from the structure parsers.
     */
    constructor(dirname0: string, code0: string, nspin0: nat, ionsCount0: nat,
                raw: seq<seq<string>>, parse: string -> real,
                ions: seq<string>, proj: seq<Projection>, files: seq<FatbandFile>,
                doscar: Option<seq<DoscarLine>>, projIons: seq<string>)
      requires code0 == "qe" ==> HasWeights(raw)
      requires HasBandStructure(code0, raw, parse) ==>
        FatbandsReadable(files, |FileNames(DirPrefix(dirname0), proj)|, nspin0, ionsCount0, ions) &&
        TicksIndex(ScanLines(raw, parse).kticks, |files[0].blocks|)
      ensures dirname == DirPrefix(dirname0) && code == code0 && nspin == nspin0 && ionsCount == ionsCount0
      ensures SpecialKpointsRead(code, raw, parse, highSymmetryPoints, knames, kticks, ngrids)
      ensures HasBandStructure(code0, raw, parse) ==>
        FatbandsRead(dirname, nspin, ionsCount, ions, proj, files, fileNames, ionsList, kpoints, bandsCount, spd, bands) &&
        PathRead(kpoints, knames, kticks, specialKpoints, modifiedKnames, spd, projected)
      ensures !HasBandStructure(code0, raw, parse) ==>
        fileNames == [] && ionsList == [] && kpoints == [] && specialKpoints == [] && modifiedKnames == [] && projected == None
      ensures data == if doscar.Some? then Some(DoscarSpec(doscar.value, projIons, ions)) else None
    {
      dirname := DirPrefix(dirname0);
      code := code0;
      nspin := nspin0;
      ionsCount := ionsCount0;
      highSymmetryPoints, knames, kticks, ngrids := [], [], [], [];
      fileNames, ionsList := [], [];
      kpoints, bandsCount := [], 0;
      spd := Zeros(0, 0, 0, 1, 2);
      bands := ZeroBands(0, 0, 0);
      specialKpoints, modifiedKnames := [], [];
      projected := None;
      data := None;
      new;
      ReadKpointsAndBands(raw, parse, ions, proj, files);
      if doscar.Some? {
        var parsed := ParseDoscar(doscar.value, projIons, ions);
        data := Some(parsed);
      }
    }

    /**
     * The k-point half of the constructor: `_getSpecialKpoints`, then the
     * band-structure branch when the card gave ticks; without ticks the band
     * fields keep their empty values.
     */
    method ReadKpointsAndBands(raw: seq<seq<string>>, parse: string -> real,
                               ions: seq<string>, proj: seq<Projection>, files: seq<FatbandFile>)
      requires code == "qe" ==> HasWeights(raw)
      requires HasBandStructure(code, raw, parse) ==>
        FatbandsReadable(files, |FileNames(dirname, proj)|, nspin, ionsCount, ions) &&
        TicksIndex(ScanLines(raw, parse).kticks, |files[0].blocks|)
      requires fileNames == [] && ionsList == [] && kpoints == [] && specialKpoints == [] && modifiedKnames == [] && projected == None
      modifies this`highSymmetryPoints, this`knames, this`kticks, this`ngrids
      modifies this`fileNames, this`ionsList, this`kpoints, this`bandsCount, this`spd, this`bands
      modifies this`specialKpoints, this`modifiedKnames, this`projected
      ensures SpecialKpointsRead(code, raw, parse, highSymmetryPoints, knames, kticks, ngrids)
      ensures HasBandStructure(code, raw, parse) ==>
        FatbandsRead(dirname, nspin, ionsCount, ions, proj, files, fileNames, ionsList, kpoints, bandsCount, spd, bands) &&
        PathRead(kpoints, knames, kticks, specialKpoints, modifiedKnames, spd, projected)
      ensures !HasBandStructure(code, raw, parse) ==>
        fileNames == [] && ionsList == [] && kpoints == [] && specialKpoints == [] && modifiedKnames == [] && projected == None
    {
      GetSpecialKpoints(raw, parse);
      assert SpecialKpointsRead(code, raw, parse, highSymmetryPoints, knames, kticks, ngrids);
      if |kticks| != 0 {
        ReadBandStructure(raw, parse, ions, proj, files);
      }
    }

    /**
     * The band-structure branch of the constructor, taken when the `K_POINTS`
     * card gave ticks: the file names, the FATBAND contents, the path, and the
     * projections of `spd` handed to the band structure.
     */
    method ReadBandStructure(raw: seq<seq<string>>, parse: string -> real,
                             ions: seq<string>, proj: seq<Projection>, files: seq<FatbandFile>)
      requires HasWeights(raw) && knames == ScanLines(raw, parse).knames && kticks == ScanLines(raw, parse).kticks
      requires |kticks| != 0
      requires FatbandsReadable(files, |FileNames(dirname, proj)|, nspin, ionsCount, ions)
      requires TicksIndex(kticks, |files[0].blocks|)
      modifies this`fileNames, this`ionsList, this`kpoints, this`bandsCount, this`spd, this`bands
      modifies this`specialKpoints, this`modifiedKnames, this`projected
      ensures FatbandsRead(dirname, nspin, ionsCount, ions, proj, files, fileNames, ionsList, kpoints, bandsCount, spd, bands)
      ensures PathRead(kpoints, knames, kticks, specialKpoints, modifiedKnames, spd, projected)
    {
      ScanLinesLengths(raw, parse);
      ReadFatbandFiles(ions, proj, files);
      CreatePathAndProjection();
    }

    /** `_createKPath`, then the projection `_spd2projected(self.spd)` handed to the band structure. */
    method CreatePathAndProjection()
      requires |kticks| >= 1 && |knames| == |kticks| && TicksIndex(kticks, |kpoints|) && spd.HasTotals()
      modifies this`specialKpoints, this`modifiedKnames, this`projected
      ensures PathRead(kpoints, knames, kticks, specialKpoints, modifiedKnames, spd, projected)
    {
      CreateKPath();
      projected := Spd2Projected(Some(spd), 1);
    }

    /** `_readFileNames` followed by `_readFatBands`. */
    method ReadFatbandFiles(ions: seq<string>, proj: seq<Projection>, files: seq<FatbandFile>)
      requires FatbandsReadable(files, |FileNames(dirname, proj)|, nspin, ionsCount, ions)
      modifies this`fileNames, this`ionsList, this`kpoints, this`bandsCount, this`spd, this`bands
      ensures FatbandsRead(dirname, nspin, ionsCount, ions, proj, files, fileNames, ionsList, kpoints, bandsCount, spd, bands)
      ensures |kpoints| == |files[0].blocks| && spd.HasTotals()
    {
      ReadFileNames(ions, proj);
      ReadFatBands(files);
    }

    /**
     * `_getSpecialKpoints`: in the `qe` branch, the loop over the `K_POINTS`
     * lines and the `ngrids` loop over the first `nhigh_sym` lines; otherwise
     * every list is empty.
     */
    method GetSpecialKpoints(raw: seq<seq<string>>, parse: string -> real)
      requires code == "qe" ==> HasWeights(raw)
      modifies this`highSymmetryPoints, this`knames, this`kticks, this`ngrids
      ensures code == "qe" ==>
        var r := ScanLines(raw, parse);
        highSymmetryPoints == r.points && knames == r.knames && kticks == r.kticks &&
        |r.knames| <= |raw| && ngrids == NGrids(raw, parse, |r.knames|)
      ensures code != "qe" ==> highSymmetryPoints == [] && knames == [] && kticks == [] && ngrids == []
    {
      if code == "qe" {
        var rawHighSymmetry: seq<Vec> := [];
        knames, kticks := [], [];
        var tickCountIndex := 0;
        for i := 0 to |raw|
          invariant SpecialKpoints(rawHighSymmetry, knames, kticks, tickCountIndex) == ScanLines(raw[..i], parse)
        {
          ScanLinesStep(raw, parse, i);
          var x := raw[i];
          if |x| == 5 {
            rawHighSymmetry := rawHighSymmetry + [[parse(x[0]), parse(x[1]), parse(x[2])]];
            knames := knames + [RemoveChar(x[4], '!')];
            kticks := kticks + [tickCountIndex];
          }
          if parse(x[3]) == 0.0 {
            tickCountIndex := tickCountIndex + 1;
          }
        }
        assert raw[..|raw|] == raw;
        highSymmetryPoints := rawHighSymmetry;
        var nhighSym := |knames|;
        NGridsInBounds(raw, parse);
        ngrids := [];
        ghost var points, names, ticks := highSymmetryPoints, knames, kticks;
        for ihs := 0 to nhighSym
          invariant highSymmetryPoints == points && knames == names && kticks == ticks
          invariant ngrids == NGrids(raw, parse, ihs)
        {
          ngrids := ngrids + [Trunc(parse(raw[ihs][3]))];
        }
      } else {
        highSymmetryPoints, knames, kticks, ngrids := [], [], [], [];
      }
    }

    /**
     * `_readFileNames`: one name per orbital token of every match, in order,
     * each after the stored directory prefix and one more separator, as written.
     */
    method ReadFileNames(ions: seq<string>, proj: seq<Projection>)
      modifies this`fileNames, this`ionsList
      ensures ionsList == ions
      ensures fileNames == FileNames(dirname, proj)
      ensures |fileNames| == Sum(OrbitalCounts(proj))
    {
      var dir := dirname;
      fileNames := [];
      ionsList := ions;
      for p := 0 to |proj|
        invariant dir == dirname && ionsList == ions
        invariant fileNames == FileNames(dir, proj[..p])
      {
        assert proj[..p + 1][..p] == proj[..p];
        var element := proj[p].0;
        var orbitals := proj[p].1;
        ghost var front := fileNames;
        for o := 0 to |orbitals|
          invariant dir == dirname && ionsList == ions
          invariant fileNames == front + seq(o, j requires 0 <= j < o => FatbandNameAsWritten(dir, element, orbitals[j]))
        {
          fileNames := fileNames + [FatbandNameAsWritten(dir, element, orbitals[o])];
          assert seq(o + 1, j requires 0 <= j < o + 1 => FatbandNameAsWritten(dir, element, orbitals[j])) ==
            seq(o, j requires 0 <= j < o => FatbandNameAsWritten(dir, element, orbitals[j])) + [FatbandNameAsWritten(dir, element, orbitals[o])];
        }
        assert FileNames(dir, proj[..p + 1]) ==
          front + seq(|orbitals|, j requires 0 <= j < |orbitals| => FatbandNameAsWritten(dir, element, orbitals[j]));
      }
      assert proj[..|proj|] == proj;
      FileNamesCount(dir, proj);
    }

    /**
     * `_readFatBands`: the k-points of the first file, `NBANDS`, the zero
     * arrays, and per file the atom and orbital lookups, the k-point and
     * band-line loops, and the totals.
     */
    method ReadFatBands(files: seq<FatbandFile>)
      requires FatbandsReadable(files, |fileNames|, nspin, ionsCount, ionsList)
      modifies this`kpoints, this`bandsCount, this`spd, this`bands
      ensures kpoints == FatbandKpoints(files)
      ensures bandsCount == files[0].nbands
      ensures spd == ReadFiles(ZeroSpd(files, nspin, ionsCount), ionsList, files, |files|)
      ensures bands == ReadFilesBands(ZeroBandsOf(files, nspin), files, |files|)
    {
      ReadKpoints(files);
      bandsCount := files[0].nbands;
      spd := ZeroSpd(files, nspin, ionsCount);
      bands := ZeroBandsOf(files, nspin);
      ReadFileLoop(files);
    }

    /** The k-point loop of `_readFatBands`: one k-point per `# K-Point` block of the first file. */
    method ReadKpoints(files: seq<FatbandFile>)
      requires |files| >= 1
      modifies this`kpoints
      ensures kpoints == FatbandKpoints(files)
    {
      var first := files[0];
      kpoints := [];
      for ik := 0 to |first.blocks|
        invariant |kpoints| == ik && forall j :: 0 <= j < ik ==> kpoints[j] == first.blocks[j].kpoint
      {
        kpoints := kpoints + [first.blocks[ik].kpoint];
      }
    }

    /** The loop of `_readFatBands` over the FATBAND files, from the zero arrays. */
    method ReadFileLoop(files: seq<FatbandFile>)
      requires Writable(spd) && WritableBands(bands) && FilesFit(spd, ionsList, files)
      requires spd.ns == nspin && bands.ns == nspin && spd.nb == bandsCount && bands.nb == bandsCount && bands.nk == spd.nk
      modifies this`spd, this`bands
      ensures spd == ReadFiles(old(spd), ionsList, files, |files|)
      ensures bands == ReadFilesBands(old(bands), files, |files|)
    {
      for file := 0 to |files|
        invariant spd == ReadFiles(old(spd), ionsList, files, file)
        invariant bands == ReadFilesBands(old(bands), files, file)
        invariant spd.ns == nspin && bands.ns == nspin && spd.nb == bandsCount && bands.nb == bandsCount && bands.nk == spd.nk
      {
        assert FileFits(old(spd), ionsList, files[file]);
        ReadFile(files[file]);
      }
    }

    /**
     * The body of the file loop of `_readFatBands`: the atom and orbital of
     * the `# FATBAND for` header, the blocks, and the totals of `spd`.
     */
    method ReadFile(f: FatbandFile)
      requires Writable(spd) && WritableBands(bands) && FileFits(spd, ionsList, f)
      requires spd.ns == nspin && bands.ns == nspin && spd.nb == bandsCount && bands.nb == bandsCount && bands.nk == spd.nk
      modifies this`spd, this`bands
      ensures spd == Totals(WriteFile(old(spd), ionsList, f))
      ensures bands == WriteBlocksBands(old(bands), f.blocks, |f.blocks|)
    {
      var iion := FindIon(ionsList, f.info[0]);
      var iorbital := FindOrbital(Orbitals, f.info[1]);
      ReadBlocks(f.blocks, iion, iorbital);
      spd := Totals(spd);
    }

    /**
     * The loop of `_readFatBands` over the `# K-Point` blocks of one file,
     * filling column (iion, iorbital) of `spd` and the energies.
     */
    method ReadBlocks(blocks: seq<KBlock>, iion: nat, iorbital: nat)
      requires Writable(spd) && WritableBands(bands)
      requires spd.ns == nspin && bands.ns == nspin && spd.nb == bandsCount && bands.nb == bandsCount && bands.nk == spd.nk
      requires iion < spd.nrows && iorbital < spd.ncols && BlocksFit(blocks, spd.nk, spd.nb, spd.ns)
      modifies this`spd, this`bands
      ensures spd == WriteBlocks(old(spd), blocks, |blocks|, iion, iorbital)
      ensures bands == WriteBlocksBands(old(bands), blocks, |blocks|)
    {
      for ik := 0 to |blocks|
        invariant spd == WriteBlocks(old(spd), blocks, ik, iion, iorbital)
        invariant bands == WriteBlocksBands(old(bands), blocks, ik)
      {
        ReadBlock(blocks[ik].lines, ik, iion, iorbital);
      }
    }

    /**
     * The loop over the band lines of block `ik`: with two spins line iband
     * (iband < NBANDS) gives spin 0 and its partner line iband + NBANDS gives
     * spin 1, and the lines past NBANDS are skipped; otherwise line iband gives
     * spin 0. Field 1 is the energy and field 2 the weight.
     */
    method ReadBlock(lines: seq<BandLine>, ik: nat, iion: nat, iorbital: nat)
      requires Writable(spd) && WritableBands(bands)
      requires spd.ns == nspin && bands.ns == nspin && spd.nb == bandsCount && bands.nb == bandsCount && bands.nk == spd.nk
      requires ik < spd.nk && iion < spd.nrows && iorbital < spd.ncols && LinesFit(lines, bandsCount, nspin)
      modifies this`spd, this`bands
      ensures spd == WriteLines(old(spd), lines, ik, |lines|, iion, iorbital)
      ensures bands == WriteLinesBands(old(bands), lines, ik, |lines|)
    {
      ghost var start, startBands := spd, bands;
      for iband := 0 to |lines|
        invariant spd == WriteLines(start, lines, ik, iband, iion, iorbital)
        invariant bands == WriteLinesBands(startBands, lines, ik, iband)
        invariant Writable(spd) && WritableBands(bands)
        invariant spd.ns == nspin && bands.ns == nspin && spd.nb == bandsCount && bands.nb == bandsCount && bands.nk == spd.nk
        invariant ik < spd.nk && iion < spd.nrows && iorbital < spd.ncols
      {
        ReadLineEnergies(lines, ik, iband);
        ReadLineWeights(lines, ik, iband, iion, iorbital);
      }
    }

    /** The `bands` half of the band-line loop body: field 1 of the line, and with two spins of its partner line. */
    method ReadLineEnergies(lines: seq<BandLine>, ik: nat, iband: nat)
      requires WritableBands(bands) && bands.ns == nspin && bands.nb == bandsCount
      requires ik < bands.nk && iband < |lines| && LinesFit(lines, bandsCount, nspin)
      modifies this`bands
      ensures bands == WriteLineBands(old(bands), lines, ik, iband)
    {
      if nspin == 2 {
        if iband < bandsCount {
          bands := SetBand(bands, ik, iband, 0, lines[iband][1]);
          bands := SetBand(bands, ik, iband, 1, lines[iband + bandsCount][1]);
        }
      } else {
        bands := SetBand(bands, ik, iband, 0, lines[iband][1]);
      }
    }

    /** The `spd` half of the band-line loop body: field 2 of the line, and with two spins of its partner line. */
    method ReadLineWeights(lines: seq<BandLine>, ik: nat, iband: nat, iion: nat, iorbital: nat)
      requires Writable(spd) && spd.ns == nspin && spd.nb == bandsCount
      requires ik < spd.nk && iion < spd.nrows && iorbital < spd.ncols && iband < |lines| && LinesFit(lines, bandsCount, nspin)
      modifies this`spd
      ensures spd == WriteLine(old(spd), lines, ik, iband, iion, iorbital)
    {
      if nspin == 2 {
        if iband < bandsCount {
          spd := SetEntry(spd, ik, iband, 0, iion, iorbital, lines[iband][2]);
          spd := SetEntry(spd, ik, iband, 1, iion, iorbital, lines[iband + bandsCount][2]);
        }
      } else {
        spd := SetEntry(spd, ik, iband, 0, iion, iorbital, lines[iband][2]);
      }
    }

    /**
     * `_createKPath` up to the `KPath` call: segment i runs between the
     * k-points at ticks i and i + 1 and is named by names i and i + 1.
     */
    method CreateKPath()
      requires |kticks| >= 1 && |knames| == |kticks| && TicksIndex(kticks, |kpoints|)
      modifies this`specialKpoints, this`modifiedKnames
      ensures specialKpoints == PathSegments(kpoints, kticks)
      ensures modifiedKnames == SegmentNames(knames, |kticks| - 1)
    {
      specialKpoints := [];
      modifiedKnames := [];
      ghost var segments, names := PathSegments(kpoints, kticks), SegmentNames(knames, |kticks| - 1);
      for itick := 0 to |kticks|
        invariant |specialKpoints| == |modifiedKnames| == if itick < |kticks| then itick else |kticks| - 1
        invariant specialKpoints == segments[..|specialKpoints|]
        invariant modifiedKnames == names[..|modifiedKnames|]
      {
        if itick != |kticks| - 1 {
          specialKpoints := specialKpoints + [(kpoints[kticks[itick]], kpoints[kticks[itick + 1]])];
          modifiedKnames := modifiedKnames + [(knames[itick], knames[itick + 1])];
        }
      }
    }
  }
}
