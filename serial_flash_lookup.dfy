/**
 * The older lookup table: sixteen sequence slots held in a fixed array that
 * callers update in place through a command index (`lut[Read] = ...`). The
 * commands and their slots are the ones of the newer table.
 */
module SerialFlashLookup {
  import opened Bytes
  import opened FlexspiLut
  import opened FlexspiLookup

  /** `command_index_name(idx)`: the name of the command whose slot `idx` is, if any. */
  function CommandIndexName(idx: nat): (r: Option<string>)
    ensures r.Some? <==> idx in {0, 1, 3, 5, 9, 11, 15}
  {
    if idx == Slot(Read) then Some("READ")
    else if idx == Slot(ReadStatus) then Some("READ_STATUS")
    else if idx == Slot(WriteEnable) then Some("WRITE_ENABLE")
    else if idx == Slot(EraseSector) then Some("ERASE_SECTOR")
    else if idx == Slot(PageProgram) then Some("PAGE_PROGRAM")
    else if idx == Slot(ChipErase) then Some("CHIP_ERASE")
    else if idx == Slot(Dummy) then Some("DUMMY")
    else None
  }

  /** Slot `idx` has a name exactly when some command sits there. */
  lemma CommandIndexNameIff(idx: nat)
    ensures CommandIndexName(idx).Some? <==> exists cmd :: Slot(cmd) == idx
  {
    if CommandIndexName(idx).Some? {
      var cmd :=
        if idx == 0 then Read else if idx == 1 then ReadStatus else if idx == 3 then WriteEnable
        else if idx == 5 then EraseSector else if idx == 9 then PageProgram else if idx == 11 then ChipErase
        else Dummy;
      assert Slot(cmd) == idx;
    }
  }

  /** Distinct commands have distinct names. */
  lemma CommandIndexNameInjective(a: Command, b: Command)
    ensures CommandIndexName(Slot(a)) == CommandIndexName(Slot(b)) <==> a == b
  {
  }

  /** The table: a fixed array of sixteen sequences, updated in place. */
  class LookupTable {
    var slots: array<Sequence>

    predicate Valid()
      reads this
    {
      slots.Length == NUMBER_OF_SEQUENCES
    }

    /** The slots, in order. */
    function Contents(): (c: seq<Sequence>)
      reads this, slots
      requires Valid()
      ensures |c| == 16
    {
      NumberOfSequences();
      slots[..]
    }

    /** `new()` and `default()`: sixteen stopped sequences. */
    constructor ()
      ensures Valid() && fresh(slots)
      ensures forall i :: 0 <= i < 16 ==> Contents()[i] == STOPPED
    {
      NumberOfSequences();
      slots := new Sequence[16](_ => STOPPED);
    }

    /** `lut[cmd]`: the sequence in the command's slot. */
    function Index(cmd: Command): (s: Sequence)
      reads this, slots
      requires Valid()
      ensures s == Contents()[Slot(cmd)]
    {
      NumberOfSequences();
      slots[Slot(cmd)]
    }

    /** `lut[cmd] = s`: the command's slot becomes `s`, and only that slot changes. */
    method SetIndex(cmd: Command, s: Sequence)
      requires Valid()
      modifies slots
      ensures Valid()
      ensures Contents() == old(Contents())[Slot(cmd) := s]
      ensures Index(cmd) == s
      ensures forall c :: c != cmd ==> Index(c) == old(Index(c))
    {
      NumberOfSequences();
      slots[Slot(cmd)] := s;
    }

    /** `iter()`: the sixteen slots in order, each paired with its command's name. */
    function Iter(): (r: seq<(Sequence, Option<string>)>)
      reads this, slots
      requires Valid()
      ensures |r| == 16
      ensures forall i :: 0 <= i < 16 ==> r[i].0 == Contents()[i] && r[i].1 == CommandIndexName(i)
      ensures forall i :: 0 <= i < 16 ==> (r[i].1.Some? <==> i in {0, 1, 3, 5, 9, 11, 15})
    {
      var c := Contents();
      var r := seq(16, i requires 0 <= i < 16 => (c[i], CommandIndexName(i)));
      forall i | 0 <= i < 16 ensures r[i].1.Some? <==> i in {0, 1, 3, 5, 9, 11, 15} {
        CommandIndexNameIff(i);
      }
      r
    }
  }
}
