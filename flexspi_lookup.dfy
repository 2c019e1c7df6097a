/**
 * The newer, by-value lookup table: sixteen sequence slots, with the standard
 * commands at fixed slots. Every operation returns an updated copy.
 */
module FlexspiLookup {
  import opened Bytes
  import opened FlexspiLut

  /** The standard commands the boot ROM looks up. */
  datatype Command = Read | ReadStatus | WriteEnable | EraseSector | PageProgram | ChipErase | Dummy

  /** The slot each standard command occupies (`cmd as usize`). */
  function Slot(cmd: Command): (i: nat)
    ensures i < 16
  {
    match cmd
    case Read => 0
    case ReadStatus => 1
    case WriteEnable => 3
    case EraseSector => 5
    case PageProgram => 9
    case ChipErase => 11
    case Dummy => 15
  }

  /** Different commands have different slots. */
  lemma SlotInjective(a: Command, b: Command)
    ensures Slot(a) == Slot(b) <==> a == b
  {
  }

  const LOOKUP_TABLE_SIZE_BYTES: nat := 256
  const NUMBER_OF_SEQUENCES: nat := LOOKUP_TABLE_SIZE_BYTES / SEQUENCE_SIZE

  /** The table holds sixteen sequences. */
  lemma NumberOfSequences()
    ensures NUMBER_OF_SEQUENCES == 16
  {
  }

  type Slots = s: seq<Sequence> | |s| == 16 witness seq(16, i => STOPPED)

  datatype LookupTable = LookupTable(slots: Slots)

  /** `LookupTable::new()`: every slot is a sequence of STOPs. */
  function NewTable(): (t: LookupTable)
    ensures forall i :: 0 <= i < 16 ==> t.slots[i] == STOPPED
  {
    LookupTable(seq(16, i => STOPPED))
  }

  /** `custom_command(index, seq)`: slot `index` becomes `seq`; the index must be in range. */
  function CustomCommand(t: LookupTable, index: nat, s: Sequence): (r: LookupTable)
    requires index < 16
    ensures r.slots[index] == s
    ensures forall i :: 0 <= i < 16 && i != index ==> r.slots[i] == t.slots[i]
  {
    LookupTable(t.slots[index := s])
  }

  /** `command(cmd, seq)`: the custom command at the command's slot. */
  function SetCommand(t: LookupTable, cmd: Command, s: Sequence): (r: LookupTable)
    ensures r == CustomCommand(t, Slot(cmd), s)
    ensures r.slots[Slot(cmd)] == s
    ensures forall c :: c != cmd ==> r.slots[Slot(c)] == t.slots[Slot(c)]
  {
    CustomCommand(t, Slot(cmd), s)
  }

  /** Assignments to different slots commute. */
  lemma CustomCommandCommutes(t: LookupTable, i: nat, a: Sequence, j: nat, b: Sequence)
    requires i < 16 && j < 16 && i != j
    ensures CustomCommand(CustomCommand(t, i, a), j, b) == CustomCommand(CustomCommand(t, j, b), i, a)
  {
    var l := CustomCommand(CustomCommand(t, i, a), j, b);
    var r := CustomCommand(CustomCommand(t, j, b), i, a);
    assert l.slots == r.slots;
  }

  /** For the same slot the last assignment wins. */
  lemma CustomCommandLastWins(t: LookupTable, i: nat, a: Sequence, b: Sequence)
    requires i < 16
    ensures CustomCommand(CustomCommand(t, i, a), i, b) == CustomCommand(t, i, b)
  {
    assert CustomCommand(CustomCommand(t, i, a), i, b).slots == CustomCommand(t, i, b).slots;
  }

  /**
   * All seven standard commands can be assigned in one chain: each keeps the
   * sequence it was given, and every other slot stays stopped.
   */
  lemma AllCommandsChain(read: Sequence, status: Sequence, wren: Sequence, erase: Sequence,
                         program: Sequence, chip: Sequence, dummy: Sequence)
    ensures var t := SetCommand(SetCommand(SetCommand(SetCommand(SetCommand(SetCommand(SetCommand(
                       NewTable(), Read, read), ReadStatus, status), WriteEnable, wren), EraseSector, erase),
                       PageProgram, program), ChipErase, chip), Dummy, dummy);
            t.slots[0] == read && t.slots[1] == status && t.slots[3] == wren && t.slots[5] == erase
            && t.slots[9] == program && t.slots[11] == chip && t.slots[15] == dummy
            && t.slots[2] == t.slots[4] == t.slots[6] == t.slots[7] == t.slots[8]
               == t.slots[10] == t.slots[12] == t.slots[13] == t.slots[14] == STOPPED
  {
  }

  /** The 256-byte encoding of the table: slot `i` at byte `16 * i`. */
  function LookupTableBytes(t: LookupTable): (r: seq<u8>)
    ensures |r| == LOOKUP_TABLE_SIZE_BYTES
    ensures forall i :: 0 <= i < 16 ==> r[16 * i..16 * i + 16] == SequenceBytes(t.slots[i])
  {
    var r := SequencesBytes(t.slots);
    forall i | 0 <= i < 16 ensures r[16 * i..16 * i + 16] == SequenceBytes(t.slots[i]) {
      SequencesBytesAt(t.slots, i);
    }
    r
  }

  /** A fresh table encodes to 256 zero bytes. */
  lemma NewTableIsZeros()
    ensures LookupTableBytes(NewTable()) == Zeros(256)
  {
    var r := LookupTableBytes(NewTable());
    forall k | 0 <= k < 256 ensures r[k] == 0 {
      var i := k / 16;
      StoppedIsZeros();
      assert NewTable().slots[i] == STOPPED;
      assert r[16 * i..16 * i + 16] == Zeros(16);
      assert r[k] == r[16 * i..16 * i + 16][k - 16 * i];
    }
  }
}
