/**
 * FlexSPI lookup-table instructions and sequences: an instruction is two bytes,
 * `[operand, (opcode << 2) | pads]`, and a sequence of eight instructions is
 * sixteen bytes with instruction `i` at byte `2 * i`.
 */
module FlexspiLut {
  import opened Bytes

  /** A FlexSPI opcode, a raw 8-bit code. */
  datatype Opcode = Opcode(code: u8)

  /** Number of pads an instruction drives. */
  datatype NumPads = One | Two | Four | Eight

  /** The 2-bit pad code of `NumPads`. */
  function PadsCode(p: NumPads): (c: u8)
    ensures c < 4
    ensures PadsOfCode(c) == p
  {
    match p
    case One => 0x00
    case Two => 0x01
    case Four => 0x02
    case Eight => 0x03
  }

  /** The pads a 2-bit code stands for. */
  function PadsOfCode(c: u8): NumPads
    requires c < 4
  {
    if c == 0 then One else if c == 1 then Two else if c == 2 then Four else Eight
  }

  /** The raw little-endian encoding of an instruction. */
  type Raw = s: seq<u8> | |s| == 2 witness [0, 0]

  /** A FlexSPI instruction: its encoding, and the opcode and pads it was built from. */
  datatype Instr = Instr(raw: Raw, opcode: Opcode, pads: NumPads)

  /** Instruction fields recovered from an encoding: the operand is byte 0. */
  function DecodeOperand(raw: Raw): u8 { raw[0] }

  /** The opcode is the top six bits of byte 1. */
  function DecodeOpcode(raw: Raw): u8 { raw[1] >> 2 }

  /** The pads are the low two bits of byte 1. */
  function DecodePads(raw: Raw): NumPads { PadsOfCode(raw[1] & 3) }

  /**
   * `Instr::new`. The opcode is shifted in `u8` arithmetic, so for codes of 0x40
   * and above the top bits are lost; every defined opcode is below 0x40.
   */
  function NewInstr(opcode: Opcode, pads: NumPads, operand: u8): (i: Instr)
    ensures i.opcode == opcode && i.pads == pads
    ensures DecodeOperand(i.raw) == operand
    ensures DecodePads(i.raw) == pads
    ensures DecodeOpcode(i.raw) == opcode.code & 0x3F
    ensures opcode.code < 0x40 ==> DecodeOpcode(i.raw) == opcode.code
  {
    Instr([operand, (opcode.code << 2) | PadsCode(pads)], opcode, pads)
  }

  // Opcodes (single data rate, the two control opcodes, and double data rate).

  const SDR_CMD: Opcode := Opcode(0x01)
  const SDR_RADDR: Opcode := Opcode(0x02)
  const SDR_CADDR: Opcode := Opcode(0x03)
  const SDR_MODE1: Opcode := Opcode(0x04)
  const SDR_MODE2: Opcode := Opcode(0x05)
  const SDR_MODE4: Opcode := Opcode(0x06)
  const SDR_MODE8: Opcode := Opcode(0x07)
  const SDR_WRITE: Opcode := Opcode(0x08)
  const SDR_READ: Opcode := Opcode(0x09)
  const SDR_LEARN: Opcode := Opcode(0x0A)
  const SDR_DATASZ: Opcode := Opcode(0x0B)
  const SDR_DUMMY: Opcode := Opcode(0x0C)
  const SDR_DUMMY_RWDS: Opcode := Opcode(0x0D)

  /** Stop execution and deassert CS. */
  const STOP_OPCODE: Opcode := Opcode(0x00)
  /** Stop execution, deassert CS and keep the operand as the next start pointer. */
  const JUMP_ON_CS: Opcode := Opcode(0x1F)

  /** `ddr::to_ddr`: a DDR opcode is its SDR opcode plus 0x20 (a `u8` addition that must not overflow). */
  function ToDdr(sdr: Opcode): (ddr: Opcode)
    requires sdr.code < 0xE0
    ensures ddr.code > sdr.code
    ensures ddr.code - 0x20 == sdr.code
  {
    Opcode(sdr.code + 0x20)
  }

  const DDR_CMD: Opcode := ToDdr(SDR_CMD)
  const DDR_RADDR: Opcode := ToDdr(SDR_RADDR)
  const DDR_CADDR: Opcode := ToDdr(SDR_CADDR)
  const DDR_MODE1: Opcode := ToDdr(SDR_MODE1)
  const DDR_MODE2: Opcode := ToDdr(SDR_MODE2)
  const DDR_MODE4: Opcode := ToDdr(SDR_MODE4)
  const DDR_MODE8: Opcode := ToDdr(SDR_MODE8)
  const DDR_WRITE: Opcode := ToDdr(SDR_WRITE)
  const DDR_READ: Opcode := ToDdr(SDR_READ)
  const DDR_LEARN: Opcode := ToDdr(SDR_LEARN)
  const DDR_DATASZ: Opcode := ToDdr(SDR_DATASZ)
  const DDR_DUMMY: Opcode := ToDdr(SDR_DUMMY)
  const DDR_DUMMY_RWDS: Opcode := ToDdr(SDR_DUMMY_RWDS)

  const SDR_OPCODES: seq<Opcode> := [
    SDR_CMD, SDR_RADDR, SDR_CADDR, SDR_MODE1, SDR_MODE2, SDR_MODE4, SDR_MODE8,
    SDR_WRITE, SDR_READ, SDR_LEARN, SDR_DATASZ, SDR_DUMMY, SDR_DUMMY_RWDS]

  const DDR_OPCODES: seq<Opcode> := [
    DDR_CMD, DDR_RADDR, DDR_CADDR, DDR_MODE1, DDR_MODE2, DDR_MODE4, DDR_MODE8,
    DDR_WRITE, DDR_READ, DDR_LEARN, DDR_DATASZ, DDR_DUMMY, DDR_DUMMY_RWDS]

  /** Every opcode the instruction set defines. */
  const ALL_OPCODES: seq<Opcode> := SDR_OPCODES + DDR_OPCODES + [STOP_OPCODE, JUMP_ON_CS]

  /** Each DDR opcode is the SDR opcode in the same position plus 0x20. */
  lemma DdrIsSdrPlus20()
    ensures |DDR_OPCODES| == |SDR_OPCODES| == 13
    ensures forall i :: 0 <= i < 13 ==> DDR_OPCODES[i].code as int == SDR_OPCODES[i].code as int + 0x20
  {
  }

  /** The defined opcodes are pairwise distinct and all fit in six bits. */
  lemma OpcodesDistinct()
    ensures |ALL_OPCODES| == 28
    ensures forall i, j :: 0 <= i < j < 28 ==> ALL_OPCODES[i] != ALL_OPCODES[j]
    ensures forall i :: 0 <= i < 28 ==> ALL_OPCODES[i].code <= 0x2D
  {
    OpcodeCodes();
  }

  /** The SDR opcodes are 1 to 13, in order. */
  lemma SdrCodes()
    ensures |SDR_OPCODES| == 13
    ensures forall i :: 0 <= i < 13 ==> SDR_OPCODES[i].code as int == i + 1
  {
  }

  /** The codes of `ALL_OPCODES`, position by position. */
  lemma OpcodeCodes()
    ensures |ALL_OPCODES| == 28
    ensures forall i :: 0 <= i < 28 ==> ALL_OPCODES[i].code as int == CodeAt(i)
  {
    SdrCodes();
    DdrIsSdrPlus20();
    forall i | 0 <= i < 28 ensures ALL_OPCODES[i].code as int == CodeAt(i) {
      if i < 13 {
        assert ALL_OPCODES[i] == SDR_OPCODES[i];
      } else if i < 26 {
        assert ALL_OPCODES[i] == DDR_OPCODES[i - 13];
      }
    }
  }

  /** The code at position `i` of `ALL_OPCODES`: 1 to 13, then 0x21 to 0x2D, then STOP and JUMP_ON_CS. */
  function CodeAt(i: nat): int
  {
    if i < 13 then i + 1 else if i < 26 then i + 0x14 else if i == 26 then 0 else 0x1F
  }

  /** Every defined opcode survives encoding: its instructions decode back to it. */
  lemma DefinedOpcodesRoundTrip(i: nat, pads: NumPads, operand: u8)
    requires i < |ALL_OPCODES|
    ensures DecodeOpcode(NewInstr(ALL_OPCODES[i], pads, operand).raw) == ALL_OPCODES[i].code
  {
    OpcodesDistinct();
  }

  /** `Instr::stop()` and `STOP`: all-zero bytes, STOP opcode, one pad. */
  const STOP: Instr := Instr([0, 0], STOP_OPCODE, One)

  /** `STOP` is what `Instr::new` builds from the STOP opcode, one pad and a zero operand. */
  lemma StopIsNewStop()
    ensures NewInstr(STOP_OPCODE, One, 0) == STOP
    ensures STOP.raw == [0, 0]
  {
  }

  // ---------------------------------------------------------------------------
  // Sequences

  /** Number of instructions in a sequence, and bytes in its encoding. */
  const INSTRUCTIONS_PER_SEQUENCE: nat := 8
  const SEQUENCE_SIZE: nat := 16

  type Instrs = s: seq<Instr> | |s| == INSTRUCTIONS_PER_SEQUENCE witness seq(8, _ => Instr([0, 0], Opcode(0), One))

  /** A sequence of eight instructions, unused ones being STOP. */
  datatype Sequence = Sequence(instrs: Instrs)

  /** `Sequence::stopped()`: eight STOPs. */
  const STOPPED: Sequence := Sequence([STOP, STOP, STOP, STOP, STOP, STOP, STOP, STOP])

  /** The encoding of a list of instructions: their raw bytes, back to back. */
  function InstrsBytes(instrs: seq<Instr>): (r: seq<u8>)
    ensures |r| == 2 * |instrs|
  {
    if instrs == [] then [] else InstrsBytes(instrs[..|instrs| - 1]) + instrs[|instrs| - 1].raw
  }

  /** Instruction `i` occupies bytes `2 * i` and `2 * i + 1` of the encoding. */
  lemma {:induction false} InstrsBytesAt(instrs: seq<Instr>, i: nat)
    requires i < |instrs|
    ensures InstrsBytes(instrs)[2 * i] == instrs[i].raw[0]
    ensures InstrsBytes(instrs)[2 * i + 1] == instrs[i].raw[1]
    decreases |instrs|
  {
    var n := |instrs| - 1;
    if i < n {
      InstrsBytesAt(instrs[..n], i);
      assert instrs[..n][i] == instrs[i];
    }
  }

  /** The 16-byte encoding of a sequence. */
  function SequenceBytes(s: Sequence): (r: seq<u8>)
    ensures |r| == SEQUENCE_SIZE
  {
    InstrsBytes(s.instrs)
  }

  /**
   * `sequence(instrs)`: fills a zeroed 16-byte buffer two bytes at a time with
   * the instructions' raw encodings.
   */
  method EncodeSequence(instrs: Instrs) returns (bytes: seq<u8>)
    ensures |bytes| == SEQUENCE_SIZE
    ensures forall i :: 0 <= i < 8 ==> bytes[2 * i] == instrs[i].raw[0] && bytes[2 * i + 1] == instrs[i].raw[1]
    ensures bytes == SequenceBytes(Sequence(instrs))
  {
    var buffer := new u8[16](_ => 0);
    for i := 0 to 8
      invariant forall j :: 0 <= j < i ==> buffer[2 * j] == instrs[j].raw[0] && buffer[2 * j + 1] == instrs[j].raw[1]
    {
      buffer[2 * i] := instrs[i].raw[0];
      buffer[2 * i + 1] := instrs[i].raw[1];
    }
    bytes := buffer[..];
    var expected := SequenceBytes(Sequence(instrs));
    forall k | 0 <= k < 16 ensures bytes[k] == expected[k] {
      InstrsBytesAt(instrs, k / 2);
    }
  }

  /** The sixteen bytes of a sequence, written out instruction by instruction. */
  lemma SequenceBytesUnfolded(s: Sequence)
    ensures SequenceBytes(s) == s.instrs[0].raw + s.instrs[1].raw + s.instrs[2].raw + s.instrs[3].raw
                              + s.instrs[4].raw + s.instrs[5].raw + s.instrs[6].raw + s.instrs[7].raw
  {
    var l := SequenceBytes(s);
    var r := s.instrs[0].raw + s.instrs[1].raw + s.instrs[2].raw + s.instrs[3].raw
           + s.instrs[4].raw + s.instrs[5].raw + s.instrs[6].raw + s.instrs[7].raw;
    forall k | 0 <= k < 16 ensures l[k] == r[k] {
      InstrsBytesAt(s.instrs, k / 2);
    }
  }

  /** The encoding of a run of sequences, back to back. */
  function SequencesBytes(seqs: seq<Sequence>): (r: seq<u8>)
    ensures |r| == SEQUENCE_SIZE * |seqs|
  {
    if seqs == [] then [] else SequencesBytes(seqs[..|seqs| - 1]) + SequenceBytes(seqs[|seqs| - 1])
  }

  /** Sequence `i` occupies bytes `16 * i` up to `16 * i + 16` of the encoding. */
  lemma {:induction false} SequencesBytesAt(seqs: seq<Sequence>, i: nat)
    requires i < |seqs|
    ensures SequencesBytes(seqs)[16 * i..16 * i + 16] == SequenceBytes(seqs[i])
    decreases |seqs|
  {
    var n := |seqs| - 1;
    if i < n {
      SequencesBytesAt(seqs[..n], i);
      assert seqs[..n][i] == seqs[i];
    }
  }

  /** Encoding one more instruction appends its two bytes. */
  lemma InstrsBytesSnoc(instrs: seq<Instr>, k: nat)
    requires k < |instrs|
    ensures InstrsBytes(instrs[..k + 1]) == InstrsBytes(instrs[..k]) + instrs[k].raw
  {
    assert instrs[..k + 1][..k] == instrs[..k];
  }

  /** Encoding one more sequence appends its sixteen bytes. */
  lemma SequencesBytesSnoc(seqs: seq<Sequence>, i: nat)
    requires i < |seqs|
    ensures SequencesBytes(seqs[..i + 1]) == SequencesBytes(seqs[..i]) + SequenceBytes(seqs[i])
  {
    assert seqs[..i + 1][..i] == seqs[..i];
  }

  /** The encoding of two runs back to back is their encodings back to back. */
  lemma {:induction false} SequencesBytesAppend(a: seq<Sequence>, b: seq<Sequence>)
    ensures SequencesBytes(a + b) == SequencesBytes(a) + SequencesBytes(b)
    decreases |b|
  {
    if b == [] {
      assert a + b == a;
    } else {
      var n := |b| - 1;
      assert (a + b)[..|a + b| - 1] == a + b[..n];
      SequencesBytesAppend(a, b[..n]);
    }
  }

  /** A run of four sequences is their four encodings. */
  lemma SequencesBytes4(q: seq<Sequence>)
    requires |q| == 4
    ensures SequencesBytes(q) == SequenceBytes(q[0]) + SequenceBytes(q[1]) + SequenceBytes(q[2]) + SequenceBytes(q[3])
  {
    assert q[..3][..2] == q[..2];
    assert q[..2][..1] == q[..1];
    assert q[..1][..0] == [];
    assert SequencesBytes(q[..1]) == SequenceBytes(q[0]);
    assert SequencesBytes(q[..2]) == SequenceBytes(q[0]) + SequenceBytes(q[1]);
    assert SequencesBytes(q[..3]) == SequenceBytes(q[0]) + SequenceBytes(q[1]) + SequenceBytes(q[2]);
  }

  // ---------------------------------------------------------------------------
  // Known-good encodings

  /** Quad I/O fast read (command 0xEB): `EB 04 18 0A 06 32 04 26` and eight zero bytes. */
  lemma QuadIoFastReadCommand()
    ensures SequenceBytes(Sequence([
      NewInstr(SDR_CMD, One, 0xEB), NewInstr(SDR_RADDR, Four, 0x18),
      NewInstr(SDR_DUMMY, Four, 0x06), NewInstr(SDR_READ, Four, 0x04),
      STOP, STOP, STOP, STOP]))
      == [0xEB, 0x04, 0x18, 0x0A, 0x06, 0x32, 0x04, 0x26, 0, 0, 0, 0, 0, 0, 0, 0]
  {
    SequenceBytesUnfolded(Sequence([
      NewInstr(SDR_CMD, One, 0xEB), NewInstr(SDR_RADDR, Four, 0x18),
      NewInstr(SDR_DUMMY, Four, 0x06), NewInstr(SDR_READ, Four, 0x04),
      STOP, STOP, STOP, STOP]));
  }

  /** Read status (command 0x05, read 4 bytes): `05 04 04 24` and twelve zero bytes. */
  lemma MoreTeensy4MagicNumbers()
    ensures SequenceBytes(Sequence([
      NewInstr(SDR_CMD, One, 0x05), NewInstr(SDR_READ, One, 0x04),
      STOP, STOP, STOP, STOP, STOP, STOP]))
      == [0x05, 0x04, 0x04, 0x24] + Zeros(12)
  {
    SequenceBytesUnfolded(Sequence([
      NewInstr(SDR_CMD, One, 0x05), NewInstr(SDR_READ, One, 0x04),
      STOP, STOP, STOP, STOP, STOP, STOP]));
  }

  /** Write enable (command 0x06) followed by seven STOPs: `06 04` and fourteen zero bytes. */
  lemma WriteEnableSequence()
    ensures SequenceBytes(Sequence([NewInstr(SDR_CMD, One, 0x06), STOP, STOP, STOP, STOP, STOP, STOP, STOP]))
      == [0x06, 0x04] + Zeros(14)
  {
    SequenceBytesUnfolded(Sequence([NewInstr(SDR_CMD, One, 0x06), STOP, STOP, STOP, STOP, STOP, STOP, STOP]));
  }

  /** The stopped sequence is sixteen zero bytes. */
  lemma StoppedIsZeros()
    ensures SequenceBytes(STOPPED) == Zeros(16)
  {
    SequenceBytesUnfolded(STOPPED);
  }
}
