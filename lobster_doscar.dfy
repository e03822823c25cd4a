/**
 * `LobsterParser._parse_doscar` and `_get_dos_total`
 * (build/lib/pyprocar/io/lobster.py): the total block of DOSCAR.lobster, the
 * split of the rest of the file into per-ion blocks, and the per-ion
 * (rows, 10, 2) tensor that sends each projected column to its orbital slot.
 *
 * A line is taken already split: its numbers are the floats of the fields
 * before its first ';', and its labels, when the line has a third ';'-field,
 * are the whitespace labels of that field.
 */
module LobsterDoscar {
  import opened Common
  import LobsterKpoints

  datatype DoscarLine = DoscarLine(numbers: seq<real>, labels: Option<seq<string>>)

  /** `Truncated` is the `ValueError` the parser raises; `Malformed` stands for the index and shape errors it runs into. */
  datatype DosError = Truncated | Malformed

  datatype Result<T> = Ok(value: T) | Fail(error: DosError)

  /** One ion's tensor: rows, then 10 slots (energies and nine orbitals), then 2 spins. */
  type IonDos = seq<seq<seq<real>>>

  /** The dictionary the parser returns: `{'total'}` alone, or with the projected tensors, their label names and the ions. */
  datatype Doscar =
    | TotalOnly(total: Matrix)
    | WithProjected(total: Matrix, projected: seq<IonDos>, labelsInfo: seq<string>, ions: seq<string>)

  /** The keys of `final_labels_index`, in order. */
  const LabelsInfo: seq<string> := ["energies"] + LobsterKpoints.Orbitals

  // ---------------------------------------------------------------------------
  // Orbital labels

  /**
   * The slot a projected label goes to: 1 + j for the first orbital name j in
   * the order of the `elif` chain that `label.find` reports at index 1, or none.
   */
  function SlotOf(token: string): Option<nat>
  {
    SlotFrom(token, LobsterKpoints.Orbitals, 0)
  }

  /** The chain from name j of `names` on. */
  function SlotFrom(token: string, names: seq<string>, j: nat): Option<nat>
    requires j <= |names|
    decreases |names| - j
  {
    if j == |names| then None
    else if Find(token, names[j]) == 1 then Some(j + 1)
    else SlotFrom(token, names, j + 1)
  }

  /** From orbital j on, the search stops at the first orbital found at index 1, if any. */
  lemma {:induction false} SlotFromCharacterised(token: string, names: seq<string>, j: nat)
    requires j <= |names|
    ensures var r := SlotFrom(token, names, j);
      (r.Some? ==> j + 1 <= r.value <= |names| && Find(token, names[r.value - 1]) == 1) &&
      (r.Some? ==> forall i :: j <= i < r.value - 1 ==> Find(token, names[i]) != 1) &&
      (r.None? ==> forall i :: j <= i < |names| ==> Find(token, names[i]) != 1)
    decreases |names| - j
  {
    if j < |names| && Find(token, names[j]) != 1 {
      SlotFromCharacterised(token, names, j + 1);
    }
  }

  /** A label's slot is 1 + the first orbital found at index 1 of it; with none found, it has no slot. */
  lemma SlotOfCharacterised(token: string)
    ensures var r := SlotOf(token);
      (r.Some? ==> 1 <= r.value <= 9 && Find(token, LobsterKpoints.Orbitals[r.value - 1]) == 1) &&
      (r.Some? ==> forall j :: 0 <= j < r.value - 1 ==> Find(token, LobsterKpoints.Orbitals[j]) != 1) &&
      (r.None? ==> forall j :: 0 <= j < 9 ==> Find(token, LobsterKpoints.Orbitals[j]) != 1)
  {
    SlotFromCharacterised(token, LobsterKpoints.Orbitals, 0);
  }

  /** `s.find(sub) == 1` exactly when sub occurs at index 1 and not at index 0. */
  lemma FindIsOne(s: string, sub: string)
    ensures Find(s, sub) == 1 <==> !OccursAt(s, sub, 0) && OccursAt(s, sub, 1)
  {
  }

  /** No orbital name is a prefix of another, as each differs from the others in its first, third or fourth character. */
  lemma OrbitalsPrefixFree(i: nat, j: nat)
    requires i < 9 && j < 9 && i != j
    ensures !(|LobsterKpoints.Orbitals[i]| <= |LobsterKpoints.Orbitals[j]| &&
              LobsterKpoints.Orbitals[j][..|LobsterKpoints.Orbitals[i]|] == LobsterKpoints.Orbitals[i])
  {
    var o := LobsterKpoints.Orbitals;
    var k := if o[i][0] != o[j][0] then 0 else if o[i][2] != o[j][2] then 2 else 3;
    assert k < |o[i]| && k < |o[j]| && o[i][k] != o[j][k] by {
      assert i == 0 || i == 1 || i == 2 || i == 3 || i == 4 || i == 5 || i == 6 || i == 7 || i == 8;
      assert j == 0 || j == 1 || j == 2 || j == 3 || j == 4 || j == 5 || j == 6 || j == 7 || j == 8;
    }
    if |o[i]| <= |o[j]| {
      assert o[j][..|o[i]|][k] != o[i][k];
    }
  }

  /** Past a label's first character, orbital i is found at index 1 of `n` + orbital j exactly when i is j. */
  lemma FoundAtOneIff(n: char, i: nat, j: nat)
    requires '1' <= n <= '9' && i < 9 && j < 9
    ensures Find([n] + LobsterKpoints.Orbitals[j], LobsterKpoints.Orbitals[i]) == 1 <==> i == j
  {
    var o := LobsterKpoints.Orbitals;
    var token := [n] + o[j];
    FindIsOne(token, o[i]);
    assert !OccursAt(token, o[i], 0) by {
      assert i == 0 || i == 1 || i == 2 || i == 3 || i == 4 || i == 5 || i == 6 || i == 7 || i == 8;
      assert token[0] == n && o[i][0] != n;
    }
    if i == j {
      assert token[1..1 + |o[i]|] == o[i];
    } else if OccursAt(token, o[i], 1) {
      assert token[1..1 + |o[i]|] == o[j][..|o[i]|];
      OrbitalsPrefixFree(i, j);
    }
  }

  /** The chain stops at the first name found at index 1. */
  lemma {:induction false} SlotFromReaches(token: string, names: seq<string>, i: nat, j: nat)
    requires i <= j < |names|
    requires forall m :: i <= m < j ==> Find(token, names[m]) != 1
    requires Find(token, names[j]) == 1
    ensures SlotFrom(token, names, i) == Some(j + 1)
    decreases j - i
  {
    if i < j {
      SlotFromReaches(token, names, i + 1, j);
    }
  }

  /**
   * LOBSTER's labels are a principal quantum number followed by an orbital
   * name, and such a label lands in that orbital's slot: no orbital earlier in
   * the chain is found at index 1 of it.
   */
  lemma QuantumLabelSlot(n: char, j: nat)
    requires '1' <= n <= '9' && j < 9
    ensures SlotOf([n] + LobsterKpoints.Orbitals[j]) == Some(j + 1)
  {
    var token := [n] + LobsterKpoints.Orbitals[j];
    forall m | 0 <= m <= j
      ensures Find(token, LobsterKpoints.Orbitals[m]) == 1 <==> m == j
    {
      FoundAtOneIff(n, m, j);
    }
    SlotFromReaches(token, LobsterKpoints.Orbitals, 0, j);
  }

  // ---------------------------------------------------------------------------
  // One ion's tensor

  /** The slot of each label of a block, in order. */
  function Slots(labels: seq<string>): (slots: seq<Option<nat>>)
    ensures |slots| == |labels| && forall i :: 0 <= i < |labels| ==> slots[i] == SlotOf(labels[i])
  {
    seq(|labels|, i requires 0 <= i < |labels| => SlotOf(labels[i]))
  }

  /** The column label `ilabel` (from 1) gives to spin s: `ilabel`, or `2*ilabel-1` and `2*ilabel` with two spins. */
  function Col(ilabel: nat, s: nat, pol: bool): nat
    requires ilabel >= 1
  {
    if !pol then ilabel else if s == 0 then 2 * ilabel - 1 else 2 * ilabel
  }

  /**
   * What the label loop reads does not run off the block: a rectangular block
   * of at least one row with an energy column, and every label that finds a
   * slot has its columns.
   */
  predicate IonFits(rows: Matrix, slots: seq<Option<nat>>, pol: bool)
  {
    |rows| > 0 && |rows[0]| >= 1 && Rectangular(rows, |rows[0]|) &&
    forall i :: 0 <= i < |slots| && slots[i].Some? ==> Col(i + 1, 1, pol) < |rows[0]|
  }

  /** Sum, over the first n labels that go to `slot`, of the column each gives to spin s in row r. */
  function Acc(rows: Matrix, slots: seq<Option<nat>>, n: nat, r: nat, slot: nat, s: nat, pol: bool): real
    requires IonFits(rows, slots, pol) && n <= |slots| && r < |rows| && s < 2
  {
    if n == 0 then 0.0
    else
      var add := if slots[n - 1] == Some(slot) && (s == 0 || pol) then rows[r][Col(n, s, pol)] else 0.0;
      Acc(rows, slots, n - 1, r, slot, s, pol) + add
  }

  /**
   * Entry (r, slot, s) once the first n labels are read: the energies in slot 0
   * (for spin 1 only with two spins) as soon as one label is read, and in an
   * orbital slot the sum of the columns of the labels that go there.
   */
  function Entry(rows: Matrix, slots: seq<Option<nat>>, n: nat, r: nat, slot: nat, s: nat, pol: bool): real
    requires IonFits(rows, slots, pol) && n <= |slots| && r < |rows| && slot < 10 && s < 2
  {
    if slot == 0 then (if n >= 1 && (s == 0 || pol) then rows[r][0] else 0.0)
    else Acc(rows, slots, n, r, slot, s, pol)
  }

  predicate IonShape(t: IonDos, nrows: nat)
  {
    |t| == nrows &&
    (forall r :: 0 <= r < nrows ==> |t[r]| == 10) &&
    (forall r, slot :: 0 <= r < nrows && 0 <= slot < 10 ==> |t[r][slot]| == 2)
  }

  /** The tensor after the first n labels, entry by entry. */
  function IonTensor(rows: Matrix, slots: seq<Option<nat>>, n: nat, pol: bool): (t: IonDos)
    requires IonFits(rows, slots, pol) && n <= |slots|
    ensures IonShape(t, |rows|)
    ensures forall r, slot, s :: 0 <= r < |rows| && 0 <= slot < 10 && 0 <= s < 2 ==>
      t[r][slot][s] == Entry(rows, slots, n, r, slot, s, pol)
  {
    seq(|rows|, r requires 0 <= r < |rows| =>
      seq(10, slot requires 0 <= slot < 10 =>
        seq(2, s requires 0 <= s < 2 => Entry(rows, slots, n, r, slot, s, pol))))
  }

  /** `np.zeros(shape=[nrows, 10, 2])`. */
  function ZeroIon(nrows: nat): (t: IonDos)
    ensures IonShape(t, nrows)
  {
    seq(nrows, r => seq(10, slot => seq(2, s => 0.0)))
  }

  /**
   * The body of the label loop for label number `ilabel` (from 1), whose slot
   * is `slotOf`: slot 0 gets the energy column, and the label's slot, if any,
   * adds its column(s).
   */
  function AddLabel(tmp: IonDos, rows: Matrix, slotOf: Option<nat>, ilabel: nat, pol: bool): (t: IonDos)
    requires |rows| > 0 && |rows[0]| >= 1 && Rectangular(rows, |rows[0]|) && ilabel >= 1
    requires slotOf.Some? ==> Col(ilabel, 1, pol) < |rows[0]|
    requires IonShape(tmp, |rows|)
    ensures IonShape(t, |rows|)
  {
    seq(|rows|, r requires 0 <= r < |rows| =>
      seq(10, slot requires 0 <= slot < 10 =>
        seq(2, s requires 0 <= s < 2 => Added(tmp[r][slot][s], rows[r], slotOf, ilabel, pol, slot, s))))
  }

  /** Entry (slot, s) of one row after the loop body, given its value `prev` before. */
  function Added(prev: real, row: seq<real>, slotOf: Option<nat>, ilabel: nat, pol: bool, slot: nat, s: nat): real
    requires |row| >= 1 && ilabel >= 1 && s < 2
    requires slotOf.Some? ==> Col(ilabel, 1, pol) < |row|
  {
    if slot == 0 then (if s == 0 || pol then row[0] else prev)
    else if slotOf == Some(slot) && (s == 0 || pol) then prev + row[Col(ilabel, s, pol)]
    else prev
  }

  lemma IonExtensionality(t1: IonDos, t2: IonDos, nrows: nat)
    requires IonShape(t1, nrows) && IonShape(t2, nrows)
    requires forall r, slot, s :: 0 <= r < nrows && 0 <= slot < 10 && 0 <= s < 2 ==> t1[r][slot][s] == t2[r][slot][s]
    ensures t1 == t2
  {
    forall r | 0 <= r < nrows ensures t1[r] == t2[r] {
      forall slot | 0 <= slot < 10 ensures t1[r][slot] == t2[r][slot] {
        assert t1[r][slot] == [t1[r][slot][0], t1[r][slot][1]];
        assert t2[r][slot] == [t2[r][slot][0], t2[r][slot][1]];
      }
    }
  }

  /** One pass of the loop body turns the tensor of the first n labels into that of the first n + 1. */
  lemma AddLabelStep(rows: Matrix, slots: seq<Option<nat>>, n: nat, pol: bool)
    requires IonFits(rows, slots, pol) && n < |slots|
    ensures AddLabel(IonTensor(rows, slots, n, pol), rows, slots[n], n + 1, pol) == IonTensor(rows, slots, n + 1, pol)
  {
    var before := IonTensor(rows, slots, n, pol);
    var after := AddLabel(before, rows, slots[n], n + 1, pol);
    var expected := IonTensor(rows, slots, n + 1, pol);
    forall r, slot, s | 0 <= r < |rows| && 0 <= slot < 10 && 0 <= s < 2
      ensures after[r][slot][s] == expected[r][slot][s]
    {
      assert after[r][slot][s] == Added(before[r][slot][s], rows[r], slots[n], n + 1, pol, slot, s);
    }
    IonExtensionality(after, expected, |rows|);
  }

  lemma ZeroIonIsStart(rows: Matrix, slots: seq<Option<nat>>, pol: bool)
    requires IonFits(rows, slots, pol)
    ensures ZeroIon(|rows|) == IonTensor(rows, slots, 0, pol)
  {
    IonExtensionality(ZeroIon(|rows|), IonTensor(rows, slots, 0, pol), |rows|);
  }

  /** The label loop for one ion, proved against the entry-by-entry tensor. */
  method FillIon(rows: Matrix, labels: seq<string>, pol: bool) returns (tmp: IonDos)
    requires IonFits(rows, Slots(labels), pol)
    ensures tmp == IonTensor(rows, Slots(labels), |labels|, pol)
  {
    ZeroIonIsStart(rows, Slots(labels), pol);
    tmp := ZeroIon(|rows|);
    for i := 0 to |labels|
      invariant tmp == IonTensor(rows, Slots(labels), i, pol)
    {
      AddLabelStep(rows, Slots(labels), i, pol);
      tmp := AddLabel(tmp, rows, SlotOf(labels[i]), i + 1, pol);
    }
  }

  /** A slot that no label goes to stays zero. */
  lemma {:induction false} UnmatchedSlotStaysZero(rows: Matrix, slots: seq<Option<nat>>, n: nat, r: nat, slot: nat, s: nat, pol: bool)
    requires IonFits(rows, slots, pol) && n <= |slots| && r < |rows| && 1 <= slot < 10 && s < 2
    requires forall i :: 0 <= i < n ==> slots[i] != Some(slot)
    ensures Entry(rows, slots, n, r, slot, s, pol) == 0.0
  {
    if n > 0 {
      UnmatchedSlotStaysZero(rows, slots, n - 1, r, slot, s, pol);
    }
  }

  /** Without spin polarisation nothing is written to spin 1. */
  lemma {:induction false} SingleSpinLeavesSpinOneZero(rows: Matrix, slots: seq<Option<nat>>, n: nat, r: nat, slot: nat)
    requires IonFits(rows, slots, false) && n <= |slots| && r < |rows| && slot < 10
    ensures Entry(rows, slots, n, r, slot, 1, false) == 0.0
  {
    if n > 0 && slot > 0 {
      SingleSpinLeavesSpinOneZero(rows, slots, n - 1, r, slot);
    }
  }

  /** A label that finds no slot, read after the first, leaves the tensor as it was. */
  lemma UnrecognisedLabelIgnored(rows: Matrix, slots: seq<Option<nat>>, n: nat, pol: bool)
    requires IonFits(rows, slots, pol) && 2 <= n <= |slots| && slots[n - 1].None?
    ensures IonTensor(rows, slots, n, pol) == IonTensor(rows, slots, n - 1, pol)
  {
    IonExtensionality(IonTensor(rows, slots, n, pol), IonTensor(rows, slots, n - 1, pol), |rows|);
  }

  // ---------------------------------------------------------------------------
  // Splitting the file

  /** The count in a block header: `int(header[2])`; a short header or a negative count is malformed. */
  function Header(line: DoscarLine): (r: Result<nat>)
    ensures r.Ok? <==> |line.numbers| >= 3 && Trunc(line.numbers[2]) >= 0
    ensures r.Ok? ==> r.value == Trunc(line.numbers[2])
    ensures r.Fail? ==> r.error == Malformed
  {
    if |line.numbers| < 3 then Fail(Malformed)
    else
      var ndos := Trunc(line.numbers[2]);
      if ndos < 0 then Fail(Malformed) else Ok(ndos)
  }

  /** `data[lo:lo + count]` as number rows; the slice stops at the end of the file. */
  function Rows(data: seq<DoscarLine>, lo: nat, count: nat): (m: Matrix)
    requires lo <= |data|
    ensures |m| == if lo + count <= |data| then count else |data| - lo
    ensures forall i :: 0 <= i < |m| ==> m[i] == data[lo + i].numbers
  {
    var hi := if lo + count <= |data| then lo + count else |data|;
    seq(hi - lo, i requires 0 <= i < hi - lo => data[lo + i].numbers)
  }

  /** One projected block: its labels, its rows and the index of the line after it. */
  datatype Block = Block(labels: seq<string>, rows: Matrix, next: nat)

  /**
   * The block whose header is line i, for the k-th ion: the header needs its
   * count, its label field and an ion name from `proj_ions`.
   */
  function ParseBlock(data: seq<DoscarLine>, i: nat, projIons: seq<string>, k: nat): (r: Result<Block>)
    requires i < |data|
    ensures r.Ok? ==> r.value.next > i
    ensures r.Ok? <==> Header(data[i]).Ok? && data[i].labels.Some? && k < |projIons|
    ensures r.Ok? ==> r.value == Block(data[i].labels.value, Rows(data, i + 1, Header(data[i]).value), i + 1 + Header(data[i]).value)
    ensures r.Fail? ==> r.error == Malformed
  {
    match Header(data[i])
    case Fail(e) => Fail(e)
    case Ok(ndos) =>
      if data[i].labels.None? || k >= |projIons| then Fail(Malformed)
      else Ok(Block(data[i].labels.value, Rows(data, i + 1, ndos), i + 1 + ndos))
  }

  /** The `while iline < len(data)` loop from line i on, the k-th ion first. */
  function Blocks(data: seq<DoscarLine>, i: nat, projIons: seq<string>, k: nat): (r: Result<seq<Block>>)
    ensures r.Fail? ==> r.error == Malformed
    decreases |data| - i
  {
    if i >= |data| then Ok([])
    else match ParseBlock(data, i, projIons, k)
      case Fail(e) => Fail(e)
      case Ok(b) =>
        match Blocks(data, b.next, projIons, k + 1)
        case Fail(e) => Fail(e)
        case Ok(bs) => Ok([b] + bs)
  }

  function Prepend(acc: seq<Block>, r: Result<seq<Block>>): Result<seq<Block>>
  {
    match r
    case Fail(e) => Fail(e)
    case Ok(bs) => Ok(acc + bs)
  }

  /** A file that has lines left after the total block has at least one ion. */
  lemma BlocksNonEmpty(data: seq<DoscarLine>, i: nat, projIons: seq<string>, k: nat)
    requires i < |data| && Blocks(data, i, projIons, k).Ok?
    ensures |Blocks(data, i, projIons, k).value| >= 1
  {
  }

  /** The step of the block loop: a block that fails fails the whole split; otherwise it joins the blocks read so far. */
  lemma PrependStep(data: seq<DoscarLine>, i: nat, projIons: seq<string>, acc: seq<Block>)
    requires i < |data|
    ensures ParseBlock(data, i, projIons, |acc|).Fail? ==> Prepend(acc, Blocks(data, i, projIons, |acc|)) == Fail(Malformed)
    ensures ParseBlock(data, i, projIons, |acc|).Ok? ==>
      var b := ParseBlock(data, i, projIons, |acc|).value;
      Prepend(acc, Blocks(data, i, projIons, |acc|)) == Prepend(acc + [b], Blocks(data, b.next, projIons, |acc| + 1))
  {
    var rest := ParseBlock(data, i, projIons, |acc|);
    if rest.Ok? {
      var tail := Blocks(data, rest.value.next, projIons, |acc| + 1);
      if tail.Ok? {
        assert acc + ([rest.value] + tail.value) == (acc + [rest.value]) + tail.value;
      }
    }
  }

  /** The `while iline < len(data)` loop from line `start`, proved against `Blocks`. */
  method SplitBlocks(data: seq<DoscarLine>, start: nat, projIons: seq<string>) returns (r: Result<seq<Block>>)
    ensures r == Blocks(data, start, projIons, 0)
  {
    var iline := start;
    var blocks: seq<Block> := [];
    assert Prepend([], Blocks(data, start, projIons, 0)) == Blocks(data, start, projIons, 0) by {
      var whole := Blocks(data, start, projIons, 0);
      if whole.Ok? {
        assert [] + whole.value == whole.value;
      }
    }
    while iline < |data|
      invariant Blocks(data, start, projIons, 0) == Prepend(blocks, Blocks(data, iline, projIons, |blocks|))
      decreases |data| - iline
    {
      PrependStep(data, iline, projIons, blocks);
      var b := ParseBlock(data, iline, projIons, |blocks|);
      if b.Fail? {
        return Fail(Malformed);
      }
      blocks := blocks + [b.value];
      iline := b.value.next;
    }
    assert blocks + [] == blocks;
    return Ok(blocks);
  }

  /** The per-ion loop: every block's label loop must stay inside the block. */
  function IonsSpec(bs: seq<Block>, pol: bool): (r: Result<seq<IonDos>>)
    ensures r.Fail? <==> exists j :: 0 <= j < |bs| && !IonFits(bs[j].rows, Slots(bs[j].labels), pol)
    ensures r.Fail? ==> r.error == Malformed
    ensures r.Ok? ==> |r.value| == |bs| && forall j :: 0 <= j < |bs| ==>
      IonFits(bs[j].rows, Slots(bs[j].labels), pol) && r.value[j] == IonTensor(bs[j].rows, Slots(bs[j].labels), |bs[j].labels|, pol)
  {
    if exists j :: 0 <= j < |bs| && !IonFits(bs[j].rows, Slots(bs[j].labels), pol) then Fail(Malformed)
    else Ok(seq(|bs|, j requires 0 <= j < |bs| => IonTensor(bs[j].rows, Slots(bs[j].labels), |bs[j].labels|, pol)))
  }

  /** The `for i_ion` loop, one label loop per block. */
  method FillIons(bs: seq<Block>, pol: bool) returns (r: Result<seq<IonDos>>)
    ensures r == IonsSpec(bs, pol)
  {
    var tensors: seq<IonDos> := [];
    for j := 0 to |bs|
      invariant |tensors| == j
      invariant forall m :: 0 <= m < j ==> IonFits(bs[m].rows, Slots(bs[m].labels), pol)
      invariant forall m :: 0 <= m < j ==> tensors[m] == IonTensor(bs[m].rows, Slots(bs[m].labels), |bs[m].labels|, pol)
    {
      if !IonFits(bs[j].rows, Slots(bs[j].labels), pol) {
        return Fail(Malformed);
      }
      var t := FillIon(bs[j].rows, bs[j].labels, pol);
      tensors := tensors + [t];
    }
    assert tensors == IonsSpec(bs, pol).value;
    return Ok(tensors);
  }

  /**
   * `_parse_doscar` on the lines of a DOSCAR.lobster file, with the ion names
   * the two `re.findall` calls on lobsterout return: `ionsList`, and `projIons`
   * which names the ion of each projected block. As written, the length test
   * rejects fewer than 5 lines, and a file of exactly 5 lines then fails on the
   * missing header line 5 (an `IndexError`, here `Malformed`).
   */
  function DoscarSpec(data: seq<DoscarLine>, projIons: seq<string>, ionsList: seq<string>): Result<Doscar>
  {
    if |data| < 5 then Fail(Truncated)
    else if |data| == 5 then Fail(Malformed)
    else DoscarFromHeader(data, projIons, ionsList)
  }

  /** The same parse with the length test that line 5 needs: fewer than 6 lines is reported truncated. */
  function DoscarSpecGuarded(data: seq<DoscarLine>, projIons: seq<string>, ionsList: seq<string>): Result<Doscar>
  {
    if |data| < 6 then Fail(Truncated)
    else DoscarFromHeader(data, projIons, ionsList)
  }

  /** Everything after the length test: the header at line 5, the total block, the projected blocks. */
  function DoscarFromHeader(data: seq<DoscarLine>, projIons: seq<string>, ionsList: seq<string>): Result<Doscar>
    requires |data| >= 6
  {
    match Header(data[5])
    case Fail(e) => Fail(e)
    case Ok(ndos) =>
      var total := Rows(data, 6, ndos);
      if |total| == 0 || !Rectangular(total, |total[0]|) then Fail(Malformed)
      else if |data| <= 6 + ndos then Ok(TotalOnly(total))
      else
        match Blocks(data, 6 + ndos, projIons, 0)
        case Fail(e) => Fail(e)
        case Ok(bs) =>
          match IonsSpec(bs, |total[0]| == 5)
          case Fail(e) => Fail(e)
          case Ok(ts) => Ok(WithProjected(total, ts, LabelsInfo, ionsList))
  }

  /** The parser: the header, the total block, the block loop and the per-ion label loops, proved against `DoscarSpec`, guard as written. */
  method ParseDoscar(data: seq<DoscarLine>, projIons: seq<string>, ionsList: seq<string>) returns (r: Result<Doscar>)
    ensures r == DoscarSpec(data, projIons, ionsList)
  {
    if |data| < 5 {
      return Fail(Truncated);
    }
    if |data| == 5 {
      return Fail(Malformed);
    }
    var header := Header(data[5]);
    if header.Fail? {
      return Fail(Malformed);
    }
    var ndos := header.value;
    var total := Rows(data, 6, ndos);
    if |total| == 0 || !Rectangular(total, |total[0]|) {
      return Fail(Malformed);
    }
    var iline := 6 + ndos;
    if |data| <= iline {
      return Ok(TotalOnly(total));
    }
    var isSpinPolarized := |total[0]| == 5;
    var blocks := SplitBlocks(data, iline, projIons);
    if blocks.Fail? {
      return Fail(Malformed);
    }
    var tensors := FillIons(blocks.value, isSpinPolarized);
    if tensors.Fail? {
      return Fail(Malformed);
    }
    return Ok(WithProjected(total, tensors.value, LabelsInfo, ionsList));
  }

  /** As written, the parser raises its `ValueError` exactly on a file of fewer than 5 lines. */
  lemma TruncatedIffAsWritten(data: seq<DoscarLine>, projIons: seq<string>, ionsList: seq<string>)
    ensures DoscarSpec(data, projIons, ionsList) == Fail(Truncated) <==> |data| < 5
  {
  }

  /** With the corrected guard the `ValueError` comes exactly on a file too short to hold the header line 5. */
  lemma TruncatedIff(data: seq<DoscarLine>, projIons: seq<string>, ionsList: seq<string>)
    ensures DoscarSpecGuarded(data, projIons, ionsList) == Fail(Truncated) <==> |data| < 6
  {
  }

  /** The two guards part only on a 5-line file: as written it fails reading line 5, corrected it is reported truncated. */
  lemma GuardsDifferOnlyAtFiveLines(data: seq<DoscarLine>, projIons: seq<string>, ionsList: seq<string>)
    ensures DoscarSpec(data, projIons, ionsList) != DoscarSpecGuarded(data, projIons, ionsList) <==> |data| == 5
    ensures |data| == 5 ==> DoscarSpec(data, projIons, ionsList) == Fail(Malformed)
    ensures |data| == 5 ==> DoscarSpecGuarded(data, projIons, ionsList) == Fail(Truncated)
  {
  }

  /**
   * A parsed file with projections has at least one ion, one (rows, 10, 2)
   * tensor per block with that block's rows, and the label names `energies`
   * and the nine orbitals.
   */
  lemma ParsedProjectionShape(data: seq<DoscarLine>, projIons: seq<string>, ionsList: seq<string>)
    requires DoscarSpec(data, projIons, ionsList).Ok? && DoscarSpec(data, projIons, ionsList).value.WithProjected?
    ensures var d := DoscarSpec(data, projIons, ionsList).value;
      |d.projected| >= 1 && d.labelsInfo == LabelsInfo && |d.labelsInfo| == 10 && d.ions == ionsList &&
      |d.total| > 0 && Rectangular(d.total, |d.total[0]|)
    ensures var d := DoscarSpec(data, projIons, ionsList).value;
      var bs := Blocks(data, 6 + Header(data[5]).value, projIons, 0).value;
      |bs| == |d.projected| &&
      forall j :: 0 <= j < |bs| ==> IonShape(d.projected[j], |bs[j].rows|)
  {
    var ndos := Header(data[5]).value;
    BlocksNonEmpty(data, 6 + ndos, projIons, 0);
  }

  /** Unless the total block has 5 columns, every projected tensor is zero in spin 1. */
  lemma SpinOneOnlyWhenPolarised(data: seq<DoscarLine>, projIons: seq<string>, ionsList: seq<string>, j: nat, r: nat, slot: nat)
    requires DoscarSpec(data, projIons, ionsList).Ok? && DoscarSpec(data, projIons, ionsList).value.WithProjected?
    requires |DoscarSpec(data, projIons, ionsList).value.total[0]| != 5
    requires j < |DoscarSpec(data, projIons, ionsList).value.projected| && slot < 10
    requires r < |DoscarSpec(data, projIons, ionsList).value.projected[j]|
    ensures DoscarSpec(data, projIons, ionsList).value.projected[j][r][slot][1] == 0.0
  {
    var ndos := Header(data[5]).value;
    var bs := Blocks(data, 6 + ndos, projIons, 0).value;
    SingleSpinLeavesSpinOneZero(bs[j].rows, Slots(bs[j].labels), |bs[j].labels|, r, slot);
  }

  // ---------------------------------------------------------------------------
  // The total DOS

  /** `_get_dos_total`: the dictionary's keys in order and the column of the total block each holds. */
  datatype DosTotal = DosTotal(keys: seq<string>, columns: seq<Vec>)

  function GetDosTotal(total: Matrix, nspin: int): (d: DosTotal)
    requires forall i :: 0 <= i < |total| ==> |total[i]| >= (if nspin != 1 then 3 else 2)
    ensures d.keys == if nspin != 1 then ["energies", "Spin-up", "Spin-down"] else ["energies", "Spin-up"]
    ensures |d.columns| == |d.keys|
    ensures forall c :: 0 <= c < |d.columns| ==> d.columns[c] == Column(total, c)
  {
    if nspin != 1 then DosTotal(["energies", "Spin-up", "Spin-down"], [Column(total, 0), Column(total, 1), Column(total, 2)])
    else DosTotal(["energies", "Spin-up"], [Column(total, 0), Column(total, 1)])
  }
}
