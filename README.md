# pyprocar core in Dafny: the LOBSTER parser, the k-path, the band plot axes and the k-path script

This project models the parts of pyprocar that turn LOBSTER output into a band
structure, together with the pieces of the band-structure pipeline that consume it:

- **`LobsterParser`** (`build/lib/pyprocar/io/lobster.py`). Its steps are:
  - read the high-symmetry points of the `K_POINTS` card of the Quantum
    Espresso input;
  - name one `FATBAND_<element>_<orbital>.lobster` file per projected orbital;
  - read the k-points, band energies and orbital weights (`spd`) from those
    files, and keep the atom and orbital totals of `spd` up to date;
  - cut the path into segments and project `spd` onto the
    `(k, band, atom, principal, orbital, spin)` layout;
  - parse `DOSCAR.lobster`, including its per-ion projected densities of states
    and the total DOS dictionary.

  The object is the Dafny class `LobsterParsing.LobsterParser`, whose methods
  update its fields in the order the Python constructor does. The pure pieces
  live in `LobsterKpoints`, `LobsterSpd`, `LobsterFatbands` and `LobsterDoscar`.
- **`KPath`** (`pyprocar/core/kpath.py`). This covers:
  - the LaTeX wrapping of the point names;
  - the segment count, the tick positions and tick names (loops, hence methods);
  - the transformation of the special points by a matrix;
  - the lines `write_to_file` writes in the `vasp` format.
- **`EBSPlot`** (`pyprocar/plotter/ebs_plot.py`). The plot is the class
  `EbsPlot.EBSPlot`. It covers:
  - the spins that are drawn;
  - the x axis built segment by segment from a `KPath`, or from k-point indices;
  - the line handles of `plot_bands`;
  - the vertical tick lines, x ticks and labels;
  - the y tick locators chosen from the spacing table;
  - the default x and y limits.

  The matplotlib axes are modelled by the values handed to them, kept in fields.
- **The `kpath` script** (`build/lib/pyprocar/scripts/scriptKpath.py`):
  - it reads the cell, the positions and the species numbers from a POSCAR
    into arrays;
  - it lays the seekpath path out as a flat label array and a coordinate
    matrix;
  - it writes the `Line_mode` KPOINTS file.

Floating-point numbers are `real`. Text parsing (`float(...)`, `int(...)`),
number formatting (`%f`, `{:8.4f}`) and the norm of a k-point difference are
function parameters. The files are given as their lines split into fields.
Output files are modelled as sequences of line records (`KPaths.FileLine`,
`KpointsScript.KLine`), and `Render`/`Text` turn them into the written text.
Where the Python code would stop with an `IndexError` or a shape error, the
model has a `requires` clause. Where it raises on purpose or returns an error
value, the model returns a `Result`.

## Model

| member | source | states |
|---|---|---|
| Common.RemoveChar | pyprocar/core/kpath.py:161 | `str.replace(c, "")`: the result never contains `c`, and a string without `c` is unchanged |
| Common.Find | build/lib/pyprocar/io/lobster.py:395 | `str.find`: -1 exactly when the substring occurs nowhere, otherwise a position where it occurs with no earlier one |
| Common.Lower | build/lib/pyprocar/io/lobster.py:15 | `str.lower` on ASCII text: each upper-case letter is lowered in place and every other character is kept |
| Common.Trunc | build/lib/pyprocar/io/lobster.py:634 | `int(x)` on a float truncates toward zero: the result is within 1 of x and no farther from 0 than x |
| Common.IntToString | pyprocar/core/kpath.py:147 | `str(n)`: non-empty, only digits for n >= 0, and starting with `-` for negative n |
| Common.DigitValue | pyprocar/core/kpath.py:147 | a digit character's value, the inverse of the digit `str` writes |
| Common.NatToStringValue | pyprocar/core/kpath.py:147 | the decimal text of n reads back as n, with no leading zero unless n is 0 |
| Common.IntToStringValue | pyprocar/core/kpath.py:147 | `str(n)` reads back as n; for negative n the digits after `-` read back as -n |
| Common.VecMatIdentity | pyprocar/core/kpath.py:137 | `np.dot(p, I)` gives back p |
| LobsterKpoints.LabelledIndices | build/lib/pyprocar/io/lobster.py:613-628 | the indices of the five-field (labelled) `K_POINTS` lines, strictly increasing, and containing every labelled line |
| LobsterKpoints.ZeroWeights | build/lib/pyprocar/io/lobster.py:625-626 | the running tick counter never exceeds the number of lines read |
| LobsterKpoints.ZeroWeightsMonotone | build/lib/pyprocar/io/lobster.py:625-626 | the tick counter never decreases as more lines are read |
| LobsterKpoints.ScanLinesLengths | build/lib/pyprocar/io/lobster.py:613-628 | points, names and ticks each get one entry per labelled line, and the final counter is the number of zero-weight lines |
| LobsterKpoints.ScanLinesAt | build/lib/pyprocar/io/lobster.py:613-628 | entry j comes from the j-th labelled line: its three parsed coordinates, its label with `!` removed, and as tick the number of zero-weight lines before it |
| LobsterKpoints.ScanLinesPointAt | build/lib/pyprocar/io/lobster.py:618-622 | the j-th high-symmetry point is the three parsed coordinates of the j-th labelled line |
| LobsterKpoints.ScanLinesNameAt | build/lib/pyprocar/io/lobster.py:623 | the j-th name is the j-th labelled line's label without `!` |
| LobsterKpoints.ScanLinesTickAt | build/lib/pyprocar/io/lobster.py:616-626 | the j-th tick is the number of zero-weight lines before the j-th labelled line |
| LobsterKpoints.TicksNondecreasing | build/lib/pyprocar/io/lobster.py:613-628 | the ticks are non-negative, never decrease, and are bounded by the total zero-weight count |
| LobsterKpoints.TicksOrdered | build/lib/pyprocar/io/lobster.py:613-628 | for j <= j', tick j <= tick j' <= the total zero-weight count |
| LobsterKpoints.NamesHaveNoBang | build/lib/pyprocar/io/lobster.py:623 | no stored name contains `!` |
| LobsterKpoints.NGrids | build/lib/pyprocar/io/lobster.py:630-634 | one grid count per high-symmetry line, each the truncation of the line's weight field (never above a non-negative weight) |
| LobsterKpoints.NGridsInBounds | build/lib/pyprocar/io/lobster.py:628-634 | there are no more names than lines, so the `ngrids` loop only reads lines that exist |
| LobsterKpoints.FatbandNameInDirectory | build/lib/pyprocar/io/lobster.py:29-34 | the corrected file name: the bare FATBAND name for an empty directory, otherwise directory, one `/`, then the FATBAND name |
| LobsterKpoints.FatbandNameAsWrittenIsAbsolute | build/lib/pyprocar/io/lobster.py:464 | as written, an empty directory gives a name starting at the root `/` and not the bare FATBAND name |
| LobsterKpoints.FatbandNameAsWrittenDoublesSeparator | build/lib/pyprocar/io/lobster.py:29-34 | as written, a non-empty directory is followed by two separators |
| LobsterKpoints.OrbitalCounts | build/lib/pyprocar/io/lobster.py:452-466 | one count per `re.findall` match, equal to the number of orbital tokens of that match |
| LobsterKpoints.FileNamesCount | build/lib/pyprocar/io/lobster.py:452-466 | `_readFileNames` produces exactly one name per orbital token of every match |
| LobsterKpoints.FileNamesAt | build/lib/pyprocar/io/lobster.py:461-465 | the name of orbital o of match p sits after all earlier matches' names and is `dirname + os.sep + FATBAND_<element>_<orbital>.lobster`, as written |
| LobsterKpoints.PathSegments | build/lib/pyprocar/io/lobster.py:584-590 | one segment per pair of consecutive ticks |
| LobsterKpoints.SegmentsChain | build/lib/pyprocar/io/lobster.py:584-590 | segment i runs from the k-point at tick i to the k-point at tick i + 1, so each segment starts where the previous one ends |
| LobsterKpoints.SegmentNamesChain | build/lib/pyprocar/io/lobster.py:584-590 | segment i is named by names i and i + 1, so consecutive segments share their boundary name |
| LobsterKpoints.SegmentTickNames | build/lib/pyprocar/io/lobster.py:583-602 | the segment names chain, so the tick labels read off them are exactly the names read from `K_POINTS`, with no `A\|B` joins |
| LobsterKpoints.WrappedSegmentTickNames | build/lib/pyprocar/io/lobster.py:583-602 | wrapped in `$...$`, the segment names still chain, so the labels are the wrapped names |
| LobsterKpoints.PathTickNames | build/lib/pyprocar/io/lobster.py:583-602 | the tick names of the `KPath` built from those segments are the `K_POINTS` names, wrapped in `$...$` unless some name already has a `$` |
| LobsterKpoints.LastIndexOf | build/lib/pyprocar/io/lobster.py:505-508 | -1 exactly when x is absent, otherwise the last position holding x |
| LobsterKpoints.IonIndex | build/lib/pyprocar/io/lobster.py:505-508 | the atom of a FATBAND file: its last position in `ionsList`, or 0 when it is absent |
| LobsterKpoints.OrbitalIndex | build/lib/pyprocar/io/lobster.py:509-512 | the orbital column: one past the last orbital equal to the token without its first character, or 0 when there is none |
| LobsterKpoints.OrbitalColumns | build/lib/pyprocar/io/lobster.py:58-76 | a token naming orbital j of the list (after its quantum number) selects column j + 1 |
| LobsterKpoints.Str2BoolAsWrittenAcceptsFragments | build/lib/pyprocar/io/lobster.py:14-15 | as written, `""` and `"t"` are read as true (substring test), while the corrected reading rejects them |
| LobsterKpoints.Str2BoolCaseInsensitive | build/lib/pyprocar/io/lobster.py:14-15 | the corrected `str2bool` accepts exactly the strings equal to `true` ignoring case, and each of them is also accepted as written |
| LobsterSpd.Zeros | build/lib/pyprocar/io/lobster.py:485-493 | `np.zeros` of the `spd` shape: every entry is 0 |
| LobsterSpd.RowTotals | build/lib/pyprocar/io/lobster.py:529 | the last column of each atom row becomes the sum of its orbital columns; every other entry is kept |
| LobsterSpd.AtomTotals | build/lib/pyprocar/io/lobster.py:530 | the last row becomes the column sums over the atom rows; the atom rows are kept |
| LobsterSpd.ClearCorner | build/lib/pyprocar/io/lobster.py:531 | the first entry of the total row becomes 0; everything else is kept |
| LobsterSpd.TotalsClosedForm | build/lib/pyprocar/io/lobster.py:529-531 | after the three total assignments: atom rows keep their orbitals and get their row sum, the total row holds the column sums and a 0 in the atom column |
| LobsterSpd.TotalsDependOnlyOnBody | build/lib/pyprocar/io/lobster.py:529-531 | the totals depend only on the atom-by-orbital body, not on the old totals |
| LobsterSpd.TotalsKeepBody | build/lib/pyprocar/io/lobster.py:529-531 | recomputing totals leaves the atom-by-orbital body unchanged |
| LobsterSpd.TotalsIdempotent | build/lib/pyprocar/io/lobster.py:529-531 | recomputing totals twice is recomputing them once |
| LobsterSpd.TotalsOfZeros | build/lib/pyprocar/io/lobster.py:529-531 | the totals of the zero matrix leave it zero |
| LobsterSpd.Totals | build/lib/pyprocar/io/lobster.py:529-531 | the totals are recomputed in every (k-point, band, spin) matrix of `spd`, with the shape kept |
| LobsterSpd.TensorTotalsDependOnlyOnBodies | build/lib/pyprocar/io/lobster.py:529-531 | two `spd` arrays with the same bodies have the same totals |
| LobsterSpd.TensorTotalsKeepBodies | build/lib/pyprocar/io/lobster.py:529-531 | the totals leave every body unchanged |
| LobsterSpd.TensorTotalsIdempotent | build/lib/pyprocar/io/lobster.py:529-531 | recomputing the totals of the whole array is idempotent |
| LobsterSpd.TensorTotalsOfZeros | build/lib/pyprocar/io/lobster.py:485-493 | the zero `spd` array already has its totals |
| LobsterSpd.SetEntryAt | build/lib/pyprocar/io/lobster.py:520-528 | one assignment `spd[k, b, s, a, o] = v` changes that entry only |
| LobsterSpd.ProjectedValuesCorrect | build/lib/pyprocar/io/lobster.py:563-580 | `projected[k][b][a][i][o][s]` is `spd[k, b, s, a, o + 1]` for principal 0 and 0 otherwise, over the full projected shape |
| LobsterSpd.Spd2Projected | build/lib/pyprocar/io/lobster.py:535-581 | None for None; otherwise the shape (k-points, bands, atoms = rows - 1, principals, orbitals = columns - 2, spins) with every entry as above |
| LobsterSpd.ProjectionDependsOnOrbitalColumns | build/lib/pyprocar/io/lobster.py:580 | the projection reads only the orbital columns of the atom rows: arrays that agree there project alike |
| LobsterSpd.ProjectionIgnoresTotals | build/lib/pyprocar/io/lobster.py:529-531 | recomputing the totals before projecting does not change the projection |
| LobsterFatbands.ZeroBands | build/lib/pyprocar/io/lobster.py:495 | `np.zeros` of the band shape: every energy is 0 |
| LobsterFatbands.WriteLineAt | build/lib/pyprocar/io/lobster.py:518-528 | one band line writes its weight into the (k-point, band, spin, atom, orbital) slots the spin rule allows and leaves every other entry alone |
| LobsterFatbands.WriteLinesAt | build/lib/pyprocar/io/lobster.py:517-528 | after the first n band lines of block k, exactly the entries of those lines hold their weights (field 2), with spin 1 from the partner line when there are two spins |
| LobsterFatbands.WriteBlocksAt | build/lib/pyprocar/io/lobster.py:514-528 | after the first m blocks of a file, exactly the entries of those blocks in the file's (atom, orbital) column hold their weights |
| LobsterFatbands.WriteLinesBandsAt | build/lib/pyprocar/io/lobster.py:517-528 | after n band lines, exactly those lines' energies (field 1) are in `bands` at block k |
| LobsterFatbands.WriteBlocksBandsAt | build/lib/pyprocar/io/lobster.py:514-528 | after m blocks, exactly those blocks' energies are in `bands` |
| LobsterFatbands.WriteFileKeepsSameBodies | build/lib/pyprocar/io/lobster.py:496-528 | writing a file into arrays with the same bodies gives arrays with the same bodies |
| LobsterFatbands.TotalsAfterEachFile | build/lib/pyprocar/io/lobster.py:496-531 | recomputing the totals after every file gives the totals of all the raw writes |
| LobsterFatbands.TotalsStep | build/lib/pyprocar/io/lobster.py:528-531 | writing a file after recomputing totals gives the same totals as writing it before |
| LobsterFatbands.ReadFilesHasTotals | build/lib/pyprocar/io/lobster.py:496-531 | after the file loop, `spd` has its totals in place |
| LobsterDoscar.SlotOfCharacterised | build/lib/pyprocar/io/lobster.py:393-442 | the `elif` chain: a label goes to slot j + 1 for the first orbital j that `label.find` reports at position 1, and to no slot when there is none |
| LobsterDoscar.FindIsOne | build/lib/pyprocar/io/lobster.py:395 | `label.find(o) == True` holds exactly when o occurs at position 1 and not at 0 |
| LobsterDoscar.OrbitalsPrefixFree | build/lib/pyprocar/io/lobster.py:58-76 | no orbital name is a prefix of another |
| LobsterDoscar.FoundAtOneIff | build/lib/pyprocar/io/lobster.py:393-442 | in a label `<n><orbital>`, only that orbital is found at position 1 |
| LobsterDoscar.QuantumLabelSlot | build/lib/pyprocar/io/lobster.py:393-442 | a LOBSTER label `<n><orbital j>` lands in slot j + 1 |
| LobsterDoscar.IonTensor | build/lib/pyprocar/io/lobster.py:390-442 | the reference for one ion: a rows x 10 x 2 array whose entries are the accumulated label columns |
| LobsterDoscar.ZeroIon | build/lib/pyprocar/io/lobster.py:391 | `np.zeros(shape=[rows, 10, 2])` |
| LobsterDoscar.AddLabelStep | build/lib/pyprocar/io/lobster.py:392-442 | processing one more label takes the reference array for n labels to the one for n + 1 |
| LobsterDoscar.ZeroIonIsStart | build/lib/pyprocar/io/lobster.py:391 | the zero array is the reference for no labels |
| LobsterDoscar.FillIon | build/lib/pyprocar/io/lobster.py:391-442 | the label loop of one ion yields the reference array for all its labels |
| LobsterDoscar.UnmatchedSlotStaysZero | build/lib/pyprocar/io/lobster.py:391-442 | an orbital slot no label matches stays 0 |
| LobsterDoscar.SingleSpinLeavesSpinOneZero | build/lib/pyprocar/io/lobster.py:393-416 | without spin polarisation, spin 1 stays 0 everywhere |
| LobsterDoscar.UnrecognisedLabelIgnored | build/lib/pyprocar/io/lobster.py:393-442 | a label that matches no orbital leaves the array unchanged (beyond the energy column already copied) |
| LobsterDoscar.Header | build/lib/pyprocar/io/lobster.py:346-347 | a header line gives `int(header[2])`; a short line or a negative count is `Malformed` |
| LobsterDoscar.Rows | build/lib/pyprocar/io/lobster.py:350 | `data[lo:lo + count]`, clipped at the end of the file like a Python slice |
| LobsterDoscar.ParseBlock | build/lib/pyprocar/io/lobster.py:366-386 | an ion block: its labels (the third `;` field), its rows, and the next line past them; it fails exactly on a bad header, a missing label field, or no projected ion left |
| LobsterDoscar.BlocksNonEmpty | build/lib/pyprocar/io/lobster.py:360-386 | a successful split from a line that exists has at least one block |
| LobsterDoscar.PrependStep | build/lib/pyprocar/io/lobster.py:366-386 | one iteration of the `while` loop: a failing block fails the split, a good one is appended and the loop goes on past it |
| LobsterDoscar.SplitBlocks | build/lib/pyprocar/io/lobster.py:360-386 | the `while` loop over ion blocks gives the recursive split |
| LobsterDoscar.IonsSpec | build/lib/pyprocar/io/lobster.py:388-442 | fails exactly when some block's columns are too few for its labels; otherwise one reference array per block |
| LobsterDoscar.FillIons | build/lib/pyprocar/io/lobster.py:388-442 | the loop over ions gives `IonsSpec` |
| LobsterDoscar.ParseDoscar | build/lib/pyprocar/io/lobster.py:333-450 | the parse of DOSCAR.lobster as written: fewer than 5 lines truncated, 5 lines failing on the missing header, then header, total block, and either the total only or the projected ions with their labels |
| LobsterDoscar.TruncatedIffAsWritten | build/lib/pyprocar/io/lobster.py:339-340 | as written, the `ValueError` comes exactly for a file of fewer than 5 lines |
| LobsterDoscar.TruncatedIff | build/lib/pyprocar/io/lobster.py:339-346 | corrected guard: the file is reported truncated exactly when it has fewer than 6 lines, so line 5 always exists when it is read |
| LobsterDoscar.GuardsDifferOnlyAtFiveLines | build/lib/pyprocar/io/lobster.py:339-346 | the written and corrected parses differ exactly on a 5-line file, which as written fails reading line 5 and corrected is reported truncated |
| LobsterDoscar.ParsedProjectionShape | build/lib/pyprocar/io/lobster.py:388-446 | with projections: at least one ion, the ten labels `energies, s, p_y, ..., d_x^2-y^2`, the ions list, a rectangular total, and one rows x 10 x 2 array per block |
| LobsterDoscar.SpinOneOnlyWhenPolarised | build/lib/pyprocar/io/lobster.py:354-358 | when the total has other than 5 columns (not spin polarised), spin 1 of every projected array is 0 |
| LobsterDoscar.GetDosTotal | build/lib/pyprocar/io/lobster.py:220-234 | keys `energies, Spin-up` plus `Spin-down` unless `nspin == 1`, one column of the total per key |
| LobsterParsing.FindIon | build/lib/pyprocar/io/lobster.py:505-508 | the loop over `ionsList` gives the last matching position, or 0 |
| LobsterParsing.FindOrbital | build/lib/pyprocar/io/lobster.py:509-512 | the loop over the orbitals gives one past the last match of the token without its first character, or 0 |
| LobsterParsing.ScanLinesStep | build/lib/pyprocar/io/lobster.py:614-626 | one iteration of the `K_POINTS` loop: a labelled line appends its point, name and current tick; a zero weight advances the counter |
| LobsterParsing.ZeroSpd | build/lib/pyprocar/io/lobster.py:483-493 | the `spd` shape: k-points of the first file, its `NBANDS`, `nspin`, atoms + 1 rows, orbitals + 2 columns |
| LobsterParsing.ZeroBandsOf | build/lib/pyprocar/io/lobster.py:495 | the `bands` shape: k-points, `NBANDS`, `nspin` |
| LobsterParsing.ReadFatBandsTotals | build/lib/pyprocar/io/lobster.py:496-531 | the array `_readFatBands` leaves is the totals of all the files' writes and has its totals in place |
| LobsterParsing.FatbandKpoints | build/lib/pyprocar/io/lobster.py:476-481 | one k-point per `# K-Point` block of the first FATBAND file |
| LobsterParsing.LobsterParser.constructor | build/lib/pyprocar/io/lobster.py:18-113 | the stored directory prefix and code; `SpecialKpointsRead`: for `qe` the points, names, ticks and `ngrids` of `K_POINTS` (all empty otherwise); with ticks, the whole band structure (`FatbandsRead` and `PathRead`: file names, k-points, `NBANDS`, `spd` and `bands` read from the files, the path segments and names, and `projected`); without ticks all of those empty; then the DOSCAR parse exactly when the file exists |
| LobsterParsing.LobsterParser.ReadKpointsAndBands | build/lib/pyprocar/io/lobster.py:90-110 | `SpecialKpointsRead`, then `FatbandsRead` and `PathRead` exactly when there are ticks, and empty band fields otherwise |
| LobsterParsing.LobsterParser.ReadBandStructure | build/lib/pyprocar/io/lobster.py:94-110 | the band-structure branch: `FatbandsRead` (the file names, the first file's k-points, `NBANDS`, `spd` and `bands` as the fold of all files over the zero arrays) and `PathRead` (the path segments and names between consecutive ticks, and `projected` made from `spd`) |
| LobsterParsing.LobsterParser.ReadFatbandFiles | build/lib/pyprocar/io/lobster.py:95-96 | `FatbandsRead`: the names, then the first file's k-points, `NBANDS`, and `spd` and `bands` as the fold of all files over the zero arrays |
| LobsterParsing.LobsterParser.CreatePathAndProjection | build/lib/pyprocar/io/lobster.py:97-101 | `PathRead`: the path segments and names between consecutive ticks, and `projected` made from `spd` with one principal number |
| LobsterParsing.LobsterParser.GetSpecialKpoints | build/lib/pyprocar/io/lobster.py:604-644 | for `qe`: points, names and ticks are those of the scan and `ngrids` the truncated weights of the first `nhigh_sym` lines; otherwise all empty |
| LobsterParsing.LobsterParser.ReadFileNames | build/lib/pyprocar/io/lobster.py:452-466 | the names are the as-written FATBAND names (prefix, `os.sep`, base name) of every orbital of every match, in order, one per token |
| LobsterParsing.LobsterParser.ReadFatBands | build/lib/pyprocar/io/lobster.py:468-533 | k-points of the first file, `NBANDS`, and `spd`/`bands` as the fold of all files over the zero arrays |
| LobsterParsing.LobsterParser.ReadKpoints | build/lib/pyprocar/io/lobster.py:476-481 | the k-point loop gives one k-point per `# K-Point` block of the first file, in order |
| LobsterParsing.LobsterParser.ReadFileLoop | build/lib/pyprocar/io/lobster.py:496-531 | the file loop folds every file into `spd` and `bands` |
| LobsterParsing.LobsterParser.ReadFile | build/lib/pyprocar/io/lobster.py:497-531 | one file: its blocks written into its (atom, orbital) column, then the totals |
| LobsterParsing.LobsterParser.ReadBlocks | build/lib/pyprocar/io/lobster.py:514-528 | the block loop writes every block |
| LobsterParsing.LobsterParser.ReadBlock | build/lib/pyprocar/io/lobster.py:516-528 | the band-line loop writes every line of the block |
| LobsterParsing.LobsterParser.ReadLineEnergies | build/lib/pyprocar/io/lobster.py:518-528 | one line's energies, with the two-spin partner line |
| LobsterParsing.LobsterParser.ReadLineWeights | build/lib/pyprocar/io/lobster.py:518-528 | one line's weights, with the two-spin partner line |
| LobsterParsing.LobsterParser.CreateKPath | build/lib/pyprocar/io/lobster.py:583-590 | the special k-points and names are the chained path segments |
| KPaths.WrapNames | pyprocar/core/kpath.py:13-17 | every name wrapped in `$...$`, unless some name already has a `$`, in which case all are kept |
| KPaths.WrapNamesIdempotent | pyprocar/core/kpath.py:13-17 | wrapped names are left alone by a second wrapping |
| KPaths.UnwrapName | pyprocar/core/kpath.py:17 | stripping `$` undoes the wrapping |
| KPaths.MakeKPath | pyprocar/core/kpath.py:10-24 | the constructor: one segment per name pair, the names wrapped by `WrapNames` (every name in `$...$` unless one already has a `$`), which strip back to the given ones; points, grids and flag stored |
| KPaths.RebuildKeepsNames | pyprocar/core/kpath.py:13-17 | building a new path from a path's names (as `get_kpoints_transformed` does) keeps them |
| KPaths.TickPositions | pyprocar/core/kpath.py:26-33 | one tick per segment boundary: 0, then the index of the last grid point of each segment |
| KPaths.TickPositionsMonotone | pyprocar/core/kpath.py:26-33 | with at least one grid point per segment, ticks never decrease and lie within the grid points |
| KPaths.TickNames | pyprocar/core/kpath.py:35-44 | one label per boundary: the first start, `end|start` where the path jumps, the end otherwise, and the last end |
| KPaths.ContinuousPathTickNames | pyprocar/core/kpath.py:35-44 | a continuous path is labelled by its points in order |
| KPaths.JumpLabelSplits | pyprocar/core/kpath.py:41-42 | at a jump the label is the previous end, `|`, and the new start |
| KPaths.TransformPoints | pyprocar/core/kpath.py:137 | every special point p becomes `p · m` |
| KPaths.KpointsTransformed | pyprocar/core/kpath.py:134-140 | as written: same names and grids, transformed points, and the time-reversal flag always `true` |
| KPaths.TransformDropsTimeReversal | pyprocar/core/kpath.py:134-140 | as written, a path without time reversal is not given back by the identity transform |
| KPaths.KpointsTransformedKeepingSymmetry | pyprocar/core/kpath.py:134-140 | corrected: the flag is carried over |
| KPaths.TransformIdentity | pyprocar/core/kpath.py:134-140 | corrected: transforming by the identity gives back the same path |
| KPaths.GridLine | pyprocar/core/kpath.py:146-149 | when all grids are equal the line is that one number |
| KPaths.KpointsFileLines | pyprocar/core/kpath.py:142-176 | `vasp`: comment, grid line, `Line-mode`, `reciprocal`, then start point, end point and blank line per segment; any other format writes nothing |
| KPaths.SegmentLinesAt | pyprocar/core/kpath.py:152-175 | segment i's three lines sit at 3i, 3i + 1, 3i + 2 |
| KPaths.RenderPointStripsDollar | pyprocar/core/kpath.py:160-161 | a point line shows its name without `$` |
| KPaths.WrittenNamesRoundTrip | pyprocar/core/kpath.py:10-17 | writing a path built from `$`-free names lists those names at each segment's point lines, with the given coordinates |
| KPaths.WrittenNamesText | pyprocar/core/kpath.py:152-174 | and the text of those lines is the point line for the given name |
| EbsPlot.Linspace | pyprocar/plotter/ebs_plot.py:99-105 | `np.linspace(a, b, n)`: n points starting at a and ending at b |
| EbsPlot.LinspaceBetween | pyprocar/plotter/ebs_plot.py:99-105 | from a to b, linspace is sorted and stays between a and b |
| EbsPlot.Arange | pyprocar/plotter/ebs_plot.py:110 | the k-point indices 0, 1, ..., n - 1 |
| EbsPlot.XPrefixLength | pyprocar/plotter/ebs_plot.py:93-108 | the axis has one value per grid point |
| EbsPlot.XPrefixSorted | pyprocar/plotter/ebs_plot.py:93-108 | with segments of non-negative length the axis is sorted and lies between 0 and the end of the path |
| EbsPlot.XPrefixStartsAtZero | pyprocar/plotter/ebs_plot.py:93-100 | the axis starts at 0 |
| EbsPlot.TickPositionsInAxis | pyprocar/plotter/ebs_plot.py:408-416 | every default tick position indexes into the axis |
| EbsPlot.XAxisFromPath | pyprocar/plotter/ebs_plot.py:83-112 | the axis from a path starts at 0, is sorted and lies between its first and last value |
| EbsPlot.SpinHandles | pyprocar/plotter/ebs_plot.py:125-130 | one handle per band, in band order |
| EbsPlot.BandHandlesLength | pyprocar/plotter/ebs_plot.py:124-130 | `plot_bands` adds `len(spins) * nbands` handles |
| EbsPlot.BandHandlesAt | pyprocar/plotter/ebs_plot.py:124-130 | the handle of spin i and band b is at `i * nbands + b` |
| EbsPlot.TickSpacingTable | pyprocar/plotter/ebs_plot.py:443-460 | the table covers exactly widths in [1, 30), puts 2 to 6 major ticks in the window, 5, 8 or 10 minor ones per major, and a wider window never gets a smaller major spacing |
| EbsPlot.Min | pyprocar/plotter/ebs_plot.py:440 | the least band energy |
| EbsPlot.Max | pyprocar/plotter/ebs_plot.py:441 | the greatest band energy |
| EbsPlot.DefaultYIntervalAsWritten | pyprocar/plotter/ebs_plot.py:501-503 | the window as written starts below every band; it ends above every band when the highest is non-negative, and below the highest band otherwise |
| EbsPlot.DefaultYIntervalAsWrittenClips | pyprocar/plotter/ebs_plot.py:501-503 | as written, with all energies negative the top of the window is below the highest band |
| EbsPlot.DefaultYInterval | pyprocar/plotter/ebs_plot.py:501-503 | corrected: the window contains every band energy, and equals the written one when the highest energy is non-negative |
| EbsPlot.YLocators | pyprocar/plotter/ebs_plot.py:438-463 | the given pair when both are given; otherwise the table's pair for the width of the window (given, or the default one as written), or what was given |
| EbsPlot.YLocatorsSetWhenBoth | pyprocar/plotter/ebs_plot.py:438-463 | without both given, locators get set exactly when the width of the window (given, or the default one as written) is in [1, 30) |
| EbsPlot.DefaultLocatorsFollowTheWrittenWindow | pyprocar/plotter/ebs_plot.py:438-463 | bands from -10 to -8 eV: the written window gets locators (0.5, 0.1), where the corrected one would get (1, 0.1) |
| EbsPlot.PathTickPositions | pyprocar/core/kpath.py:26-33 | one position per segment boundary |
| EbsPlot.PathTickNames | pyprocar/core/kpath.py:35-44 | one name per segment boundary |
| EbsPlot.TickValues | pyprocar/plotter/ebs_plot.py:416 | `self.x[tick_positions]`: one value per position |
| EbsPlot.DefaultTicksOrdered | pyprocar/plotter/ebs_plot.py:408-417 | the default ticks fall inside the axis, start at 0 and run left to right |
| EbsPlot.EBSPlot.constructor | pyprocar/plotter/ebs_plot.py:40-71 | spins default to every spin and become `[0]` for non-collinear, `nspins` counts the requested ones, no handles, then the axis, ticks, locators and limits, the y window being the default one as written |
| EbsPlot.EBSPlot.InitiatePlotArgs | pyprocar/plotter/ebs_plot.py:73-81 | default ticks, locators and limits, the y window being the default one as written |
| EbsPlot.EBSPlot.GetX | pyprocar/plotter/ebs_plot.py:83-112 | the loop lays each segment's linspace after the previous ones, or falls back to indices |
| EbsPlot.EBSPlot.PlotBands | pyprocar/plotter/ebs_plot.py:114-130 | appends one handle per band of each spin, after the earlier handles |
| EbsPlot.EBSPlot.SetXTicks | pyprocar/plotter/ebs_plot.py:392-417 | with a path: vertical lines and ticks at the x of each position, labelled by the names, with the path's own as defaults; nothing without a path |
| EbsPlot.EBSPlot.SetYTicks | pyprocar/plotter/ebs_plot.py:423-463 | sets both locators when the rule settles both, otherwise changes nothing |
| EbsPlot.EBSPlot.SetXLim | pyprocar/plotter/ebs_plot.py:481-491 | the given interval, or the first to the last axis value |
| EbsPlot.EBSPlot.SetYLim | pyprocar/plotter/ebs_plot.py:493-504 | the given interval, or the default window as written |
| KpointsScript.Row | build/lib/pyprocar/scripts/scriptKpath.py:57 | row i of a matrix as a vector |
| KpointsScript.SetRow | build/lib/pyprocar/scripts/scriptKpath.py:57 | `m[i, :] = r` changes row i only |
| KpointsScript.CellRow | build/lib/pyprocar/scripts/scriptKpath.py:51-58 | cell row i is POSCAR line 2 + i times the scale (one factor or one per axis); rows past the file stay 0 |
| KpointsScript.ReadCell | build/lib/pyprocar/scripts/scriptKpath.py:51-58 | a fresh 3 x 3 cell whose rows are the cell rows |
| KpointsScript.AtomCounts | build/lib/pyprocar/scripts/scriptKpath.py:64 | one count per field of POSCAR line 6 |
| KpointsScript.ReadPositions | build/lib/pyprocar/scripts/scriptKpath.py:64-70 | a fresh natoms x 3 array of the first three fields of lines 8 .. 8 + natoms |
| KpointsScript.PositionsFromAtomLines | build/lib/pyprocar/scripts/scriptKpath.py:65-70 | positions depend only on the atom lines |
| KpointsScript.SpeciesNumbersLength | build/lib/pyprocar/scripts/scriptKpath.py:72-81 | one species number per atom |
| KpointsScript.SpeciesNumbersAt | build/lib/pyprocar/scripts/scriptKpath.py:72-81 | atoms of species j (1-based j + 1) occupy the block after all earlier species |
| KpointsScript.SpeciesNumbersSorted | build/lib/pyprocar/scripts/scriptKpath.py:72-81 | species numbers run from 1 to the number of species and never decrease |
| KpointsScript.Numbers | build/lib/pyprocar/scripts/scriptKpath.py:72-81 | the nested loop fills a fresh array with the species numbers |
| KpointsScript.FlattenPairs | build/lib/pyprocar/scripts/scriptKpath.py:88-95 | the flat label array has even length and pairs back into the path |
| KpointsScript.FlattenLayout | build/lib/pyprocar/scripts/scriptKpath.py:88-95 | segment i's start is at 2i and its end at 2i + 1 |
| KpointsScript.PathArray | build/lib/pyprocar/scripts/scriptKpath.py:88-95 | the loop fills a fresh array with the flattened path |
| KpointsScript.CoordRowIdentity | build/lib/pyprocar/scripts/scriptKpath.py:97-104 | with the identity supercell a row is the point's own coordinates |
| KpointsScript.CoordMatrix | build/lib/pyprocar/scripts/scriptKpath.py:97-104 | a fresh 2n x 3 matrix whose row m is the coordinates of label m times the supercell |
| KpointsScript.RenderEmptyIffBlank | build/lib/pyprocar/scripts/scriptKpath.py:106-125 | only the blank separator renders as an empty line |
| KpointsScript.RenderPointLabel | build/lib/pyprocar/scripts/scriptKpath.py:113-124 | a point line ends with ` ! ` and the label |
| KpointsScript.Text | build/lib/pyprocar/scripts/scriptKpath.py:106-126 | one written line per record |
| KpointsScript.SpacedLength | build/lib/pyprocar/scripts/scriptKpath.py:111-125 | 2p points give 3p lines |
| KpointsScript.SpacedAt | build/lib/pyprocar/scripts/scriptKpath.py:111-125 | segment i's lines are its two points then a blank |
| KpointsScript.WriteKpoints | build/lib/pyprocar/scripts/scriptKpath.py:106-126 | the write loop yields the header then the points, a blank after each odd-numbered one |
| KpointsScript.KpointsLinesHeader | build/lib/pyprocar/scripts/scriptKpath.py:107-110 | 4 + 3n lines, the first four the header with the grid size |
| KpointsScript.KpointsLinesAt | build/lib/pyprocar/scripts/scriptKpath.py:111-125 | lines 4 + 3i .. 6 + 3i are segment i's start point, end point and a blank |
| KpointsScript.KpointsLinesFormattable | build/lib/pyprocar/scripts/scriptKpath.py:113-124 | every point of the file has three coordinates to format |
| KpointsScript.LabelsSpaced | build/lib/pyprocar/scripts/scriptKpath.py:111-125 | the labels of the spaced lines are the labels in order |
| KpointsScript.KpointsPathRoundTrip | build/lib/pyprocar/scripts/scriptKpath.py:88-125 | reading the labels back from the written file gives the flat path, and pairing them gives the seekpath path |
| KpointsScript.ReadStructure | build/lib/pyprocar/scripts/scriptKpath.py:51-81 | the structure handed to seekpath: cell rows, positions and species numbers as above |
| KpointsScript.WritePath | build/lib/pyprocar/scripts/scriptKpath.py:88-126 | the label array, coordinate matrix and written lines for the path |
| KpointsScript.Kpath | build/lib/pyprocar/scripts/scriptKpath.py:9-127 | the whole script: structure, path layout and the KPOINTS lines and text |

## Left out

- File reading and `re.findall`/`re.split` on text: the parsed lines, matches and FATBAND contents are inputs. `float`, `int`, `%f` and `{:8.4f}` are function parameters.
- `parse_structure` and the `ElectronicBandStructure` constructor called by `LobsterParser`: the counts they give (`nspin`, atoms) are constructor parameters.
- `_get_dos_parametric` and `_get_dos_projected` of `lobster.py`: they only re-index the DOSCAR dictionary into plotting arrays.
- `KPath.kdistances`, `get_optimized_kpoints_transformed` and the pyvista helpers of `kpath.py`: they depend on numerical optimisation and plotting.
- seekpath: its path and point coordinates are inputs to the script model.
- matplotlib drawing: `set_xlabel`, `set_ylabel`, `tick_params`, colours, legends and the other plotting methods of `EBSPlot`. The axes are modelled by the values they would receive.
- Floating-point rounding: reals are exact. Integers are unbounded, and numpy's integer widths do not matter for these counts.
- LobsterParsing.LobsterParser: numpy arrays `spd` and `bands` are immutable values reassigned by the methods. In-place aliasing of numpy views is not modelled.
- LobsterDoscar.Header: a negative block count is reported as `Malformed`, where the source would slice backwards and go on. The model does not follow that path.
- LobsterParsing.LobsterParser.ReadBandStructure: the `ElectronicBandStructure` it builds is not modelled. Its ensures states the fields it hands to that constructor.
- LobsterParsing.LobsterParser.CreateKPath: stops before the `KPath(...)` call. That call also passes `kticks`, which the `KPath` constructor in `pyprocar/core/kpath.py` does not take. The path the model builds is the one that constructor would make from the segments, names and `ngrids`.
- KPaths.KpointsFileLines: models the lines `write_to_file` writes, with number formatting as a parameter. The file handle and the newline characters are not modelled.
- KPaths.GridLine: stated only for equal grids. The join of unequal grids is its body, with no further property.
- EbsPlot.EBSPlot.constructor: models `spins` as a sequence, whereas the source keeps a `range` object.
- Lower (`Common.Lower`): models `str.lower` on ASCII letters only. Python lowers every Unicode upper-case letter and can change the length (`"İ".lower()` has two characters); the names it meets here are ASCII.
- FileNamesAt (`LobsterKpoints.FileNamesAt`, and `FatbandNameAsWritten` behind it): `os.sep` is modelled as `/`, the separator on POSIX systems.
- Crashes the model turns into `requires` clauses, not error results: `KPaths.TickNames` needs at least one segment (the source indexes `knames[0]`); `EbsPlot.EBSPlot.constructor` needs at least one band energy (`bands.min()` of an empty array raises); `EbsPlot.XDefined` needs segments and non-negative grids (otherwise `x` is unbound or `linspace` raises); `KpointsScript.Kpath` needs a readable cell, readable counts and fitting coordinates (otherwise an `IndexError` or `KeyError`).

## Findings

| source | as written | input that shows it | evidently intended | confidence | as-written member | corrected member |
|---|---|---|---|---|---|---|
| build/lib/pyprocar/io/lobster.py:14-15 | `v.lower() in ("true")` tests for a substring, since `("true")` is a string, not a tuple | `""` or `"t"` is read as true | `v.lower() == "true"` | not executed | LobsterKpoints.Str2BoolAsWrittenAcceptsFragments | LobsterKpoints.Str2BoolCaseInsensitive |
| build/lib/pyprocar/io/lobster.py:464 | `dirname` already ends with a separator, and the name adds `os.sep` again | `dirname = ""` gives `/FATBAND_...` at the file-system root | one separator, and none for the current directory | not executed | LobsterKpoints.FatbandNameAsWrittenIsAbsolute | LobsterKpoints.FatbandNameInDirectory |
| pyprocar/core/kpath.py:134-140 | the new `KPath` is built without `has_time_reversal`, so it is always `True` | a path with `has_time_reversal=False`, transformed by the identity | the flag is carried over | not executed | KPaths.TransformDropsTimeReversal | KPaths.TransformIdentity |
| build/lib/pyprocar/io/lobster.py:339-346 | the guard rejects fewer than 5 lines but then reads line 5 | a 5-line DOSCAR.lobster passes the guard and fails with an `IndexError` | reject fewer than 6 lines as truncated | not executed | LobsterDoscar.GuardsDifferOnlyAtFiveLines | LobsterDoscar.TruncatedIff |
| pyprocar/plotter/ebs_plot.py:501-503 | the top of the default window is `max * 1.1` | all bands at -2 eV: the window ends at -2.2, below the bands | widen by a tenth of `abs(max)`, like the bottom | not executed | EbsPlot.DefaultYIntervalAsWrittenClips | EbsPlot.DefaultYInterval |
