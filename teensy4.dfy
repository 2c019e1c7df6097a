/**
 * The repository's known-good FCB for the Teensy 4 (a Winbond W25Q16JV on
 * FlexSPI), built with the older builder: lookup table, settings, and the 128
 * little-endian words the boot ROM accepts. `Teensy4Image` proves that the
 * builder's image reads as exactly those words, and `Teensy4Fcb` drives the
 * builder's classes, setter by setter, to that image.
 */
module Teensy4 {
  import opened Bytes
  import opened Chip
  import opened FlexspiLut
  import FlexspiFields
  import FlexspiLookup
  import opened SerialFlashFields
  import SerialFlashLookup
  import Nor = SerialFlashNor
  import opened SerialFlashBuilder
  import Fcb

  // The Winbond W25Q16JV commands.
  const FAST_READ_QUAD_IO: u8 := 0xEB
  const READ_STATUS_REGISTER_1: u8 := 0x05
  const WRITE_ENABLE: u8 := 0x06
  const SECTOR_ERASE: u8 := 0x20
  const PAGE_PROGRAM: u8 := 0x02
  const CHIP_ERASE: u8 := 0x60

  const SEQ_READ: Sequence := Sequence([
    NewInstr(SDR_CMD, One, FAST_READ_QUAD_IO), NewInstr(SDR_RADDR, Four, 0x18),
    NewInstr(SDR_DUMMY, Four, 0x06), NewInstr(SDR_READ, Four, 0x04),
    STOP, STOP, STOP, STOP])
  const SEQ_READ_STATUS: Sequence := Sequence([
    NewInstr(SDR_CMD, One, READ_STATUS_REGISTER_1), NewInstr(SDR_READ, One, 0x04),
    STOP, STOP, STOP, STOP, STOP, STOP])
  const SEQ_WRITE_ENABLE: Sequence := Sequence([
    NewInstr(SDR_CMD, One, WRITE_ENABLE), STOP, STOP, STOP, STOP, STOP, STOP, STOP])
  const SEQ_ERASE_SECTOR: Sequence := Sequence([
    NewInstr(SDR_CMD, One, SECTOR_ERASE), NewInstr(SDR_RADDR, One, 0x18),
    STOP, STOP, STOP, STOP, STOP, STOP])
  const SEQ_PAGE_PROGRAM: Sequence := Sequence([
    NewInstr(SDR_CMD, One, PAGE_PROGRAM), NewInstr(SDR_RADDR, One, 0x18), NewInstr(SDR_WRITE, One, 0x04),
    STOP, STOP, STOP, STOP, STOP])
  const SEQ_CHIP_ERASE: Sequence := Sequence([
    NewInstr(SDR_CMD, One, CHIP_ERASE), STOP, STOP, STOP, STOP, STOP, STOP, STOP])

  /** The table the test fills: the six commands at their slots, every other slot stopped. */
  predicate TeensyTable(t: seq<Sequence>)
  {
    && |t| == 16
    && t[0] == SEQ_READ && t[1] == SEQ_READ_STATUS && t[3] == SEQ_WRITE_ENABLE
    && t[5] == SEQ_ERASE_SECTOR && t[9] == SEQ_PAGE_PROGRAM && t[11] == SEQ_CHIP_ERASE
    && forall i :: 0 <= i < 16 && i !in {0, 1, 3, 5, 9, 11} ==> t[i] == STOPPED
  }

  /** 256-byte pages, 4 KiB sectors, IP commands at 30 MHz. */
  const NOR_CB: Nor.ConfigurationBlock := Nor.ConfigurationBlock(256, 4096, Nor.Clock(MHz30))

  /**
   * The builder's fields in the test, apart from the table: DQS loopback, hold
   * 1, setup 2, device mode and wait time disabled, quad pads at 60 MHz, a 2 MiB
   * A1 flash, and the NOR block above.
   */
  predicate TeensyFieldSettings(st: Settings)
  {
    && st.readSampleClkSrc == FlexspiFields.LoopbackFromDQSPad
    && st.csHoldTime == 0x01 && st.csSetupTime == 0x02
    && st.columnAddressWidth == FlexspiFields.OtherDevices
    && st.deviceModeConfiguration == Disabled
    && st.waitTimeCfgCommands == FlexspiFields.WAIT_TIME_DISABLED
    && st.deviceType == SerialNOR(NOR_CB)
    && st.serialFlashPadType == FlexspiFields.Quad
    && st.serialClkFreq == MHz60
    && st.flashSize == [0x0020_0000, 0, 0, 0]
  }

  /** The builder's fields in the test, with the table above. */
  predicate TeensySettings(st: Settings)
  {
    TeensyFieldSettings(st) && TeensyTable(st.lookupTable)
  }

  // The known-good FCB, sixteen words at a time.
  const EXPECTED_00: seq<u32> := [0x4246_4346, 0x5601_0000, 0, 0x0002_0101, 0, 0, 0, 0, 0, 0, 0, 0, 0, 0, 0, 0]
  const EXPECTED_10: seq<u32> := [0, 0x0003_0401, 0, 0, 0x0020_0000, 0, 0, 0, 0, 0, 0, 0, 0, 0, 0, 0]
  const EXPECTED_20: seq<u32> := [0x0A18_04EB, 0x2604_3206, 0, 0, 0x2404_0405, 0, 0, 0, 0, 0, 0, 0, 0x0000_0406, 0, 0, 0]
  const EXPECTED_30: seq<u32> := [0, 0, 0, 0, 0x0818_0420, 0, 0, 0, 0, 0, 0, 0, 0, 0, 0, 0]
  const EXPECTED_40: seq<u32> := [0, 0, 0, 0, 0x0818_0402, 0x0000_2004, 0, 0, 0, 0, 0, 0, 0x0000_0460, 0, 0, 0]
  const EXPECTED_50: seq<u32> := [0, 0, 0, 0, 0, 0, 0, 0, 0, 0, 0, 0, 0, 0, 0, 0]
  const EXPECTED_60: seq<u32> := [0, 0, 0, 0, 0, 0, 0, 0, 0, 0, 0, 0, 0, 0, 0, 0]
  const EXPECTED_70: seq<u32> := [0x0000_0100, 0x0000_1000, 0x0000_0001, 0, 0, 0, 0, 0, 0, 0, 0, 0, 0, 0, 0, 0]

  /** The known-good FCB as 128 little-endian words. */
  const EXPECTED: seq<u32> := EXPECTED_00 + EXPECTED_10 + EXPECTED_20 + EXPECTED_30
                            + EXPECTED_40 + EXPECTED_50 + EXPECTED_60 + EXPECTED_70

  // ---------------------------------------------------------------------------
  // The six sequences, encoded

  lemma EraseSectorBytes()
    ensures SequenceBytes(SEQ_ERASE_SECTOR) == [0x20, 0x04, 0x18, 0x08] + Zeros(12)
  {
    SequenceBytesUnfolded(SEQ_ERASE_SECTOR);
  }

  lemma PageProgramBytes()
    ensures SequenceBytes(SEQ_PAGE_PROGRAM) == [0x02, 0x04, 0x18, 0x08, 0x04, 0x20] + Zeros(10)
  {
    SequenceBytesUnfolded(SEQ_PAGE_PROGRAM);
  }

  lemma ChipEraseBytes()
    ensures SequenceBytes(SEQ_CHIP_ERASE) == [0x60, 0x04] + Zeros(14)
  {
    SequenceBytesUnfolded(SEQ_CHIP_ERASE);
  }

  /** The four words of one encoded sequence. */
  predicate SequenceWords(s: Sequence, w0: u32, w1: u32, w2: u32, w3: u32)
  {
    Words(SequenceBytes(s)) == [w0, w1, w2, w3]
  }

  /** A sequence encoded as two words and eight zero bytes. */
  lemma HalfSequenceWords(s: Sequence, w0: u32, w1: u32)
    requires SequenceBytes(s) == Le32(w0) + Le32(w1) + Zeros(8)
    ensures SequenceWords(s, w0, w1, 0, 0)
  {
    WordsAppend(Le32(w0), Le32(w1));
    WordsAppend(Le32(w0) + Le32(w1), Zeros(8));
    WordsLe32(w0);
    WordsLe32(w1);
    WordsZeros(2);
  }

  lemma ReadWords()
    ensures SequenceWords(SEQ_READ, 0x0A18_04EB, 0x2604_3206, 0, 0)
  {
    QuadIoFastReadCommand();
    HalfSequenceWords(SEQ_READ, 0x0A18_04EB, 0x2604_3206);
  }

  lemma ReadStatusWords()
    ensures SequenceWords(SEQ_READ_STATUS, 0x2404_0405, 0, 0, 0)
  {
    MoreTeensy4MagicNumbers();
    HalfSequenceWords(SEQ_READ_STATUS, 0x2404_0405, 0);
  }

  lemma WriteEnableWords()
    ensures SequenceWords(SEQ_WRITE_ENABLE, 0x0000_0406, 0, 0, 0)
  {
    WriteEnableSequence();
    HalfSequenceWords(SEQ_WRITE_ENABLE, 0x0000_0406, 0);
  }

  lemma EraseSectorWords()
    ensures SequenceWords(SEQ_ERASE_SECTOR, 0x0818_0420, 0, 0, 0)
  {
    EraseSectorBytes();
    HalfSequenceWords(SEQ_ERASE_SECTOR, 0x0818_0420, 0);
  }

  lemma PageProgramWords()
    ensures SequenceWords(SEQ_PAGE_PROGRAM, 0x0818_0402, 0x0000_2004, 0, 0)
  {
    PageProgramBytes();
    HalfSequenceWords(SEQ_PAGE_PROGRAM, 0x0818_0402, 0x0000_2004);
  }

  lemma ChipEraseWords()
    ensures SequenceWords(SEQ_CHIP_ERASE, 0x0000_0460, 0, 0, 0)
  {
    ChipEraseBytes();
    HalfSequenceWords(SEQ_CHIP_ERASE, 0x0000_0460, 0);
  }

  lemma StoppedWords()
    ensures SequenceWords(STOPPED, 0, 0, 0, 0)
  {
    StoppedIsZeros();
    HalfSequenceWords(STOPPED, 0, 0);
  }

  // ---------------------------------------------------------------------------
  // The lookup table, four slots at a time

  /** The words of four consecutive slots. */
  lemma {:induction false} QuadWords(q: seq<Sequence>)
    requires |q| == 4
    ensures Words(SequencesBytes(q)) == Words(SequenceBytes(q[0])) + Words(SequenceBytes(q[1]))
                                      + Words(SequenceBytes(q[2])) + Words(SequenceBytes(q[3]))
  {
    SequencesBytes4(q);
    var a, b, c, d := SequenceBytes(q[0]), SequenceBytes(q[1]), SequenceBytes(q[2]), SequenceBytes(q[3]);
    WordsAppend(a, b);
    WordsAppend(a + b, c);
    WordsAppend(a + b + c, d);
  }

  /** Slots 0 to 3: read, read status, a stopped slot, write enable. */
  lemma LutQuad20(a: Sequence, b: Sequence, c: Sequence, d: Sequence)
    requires SequenceWords(a, 0x0A18_04EB, 0x2604_3206, 0, 0) && SequenceWords(b, 0x2404_0405, 0, 0, 0)
    requires SequenceWords(c, 0, 0, 0, 0) && SequenceWords(d, 0x0000_0406, 0, 0, 0)
    ensures Words(SequenceBytes(a)) + Words(SequenceBytes(b)) + Words(SequenceBytes(c)) + Words(SequenceBytes(d)) == EXPECTED_20
  {
  }

  /** Slots 4 to 7: sector erase between stopped slots. */
  lemma LutQuad30(a: Sequence, b: Sequence, c: Sequence, d: Sequence)
    requires SequenceWords(a, 0, 0, 0, 0) && SequenceWords(b, 0x0818_0420, 0, 0, 0)
    requires SequenceWords(c, 0, 0, 0, 0) && SequenceWords(d, 0, 0, 0, 0)
    ensures Words(SequenceBytes(a)) + Words(SequenceBytes(b)) + Words(SequenceBytes(c)) + Words(SequenceBytes(d)) == EXPECTED_30
  {
  }

  /** Slots 8 to 11: page program and chip erase, each after a stopped slot. */
  lemma LutQuad40(a: Sequence, b: Sequence, c: Sequence, d: Sequence)
    requires SequenceWords(a, 0, 0, 0, 0) && SequenceWords(b, 0x0818_0402, 0x0000_2004, 0, 0)
    requires SequenceWords(c, 0, 0, 0, 0) && SequenceWords(d, 0x0000_0460, 0, 0, 0)
    ensures Words(SequenceBytes(a)) + Words(SequenceBytes(b)) + Words(SequenceBytes(c)) + Words(SequenceBytes(d)) == EXPECTED_40
  {
  }

  /** Slots 12 to 15: all stopped. */
  lemma LutQuad50(a: Sequence, b: Sequence, c: Sequence, d: Sequence)
    requires SequenceWords(a, 0, 0, 0, 0) && SequenceWords(b, 0, 0, 0, 0)
    requires SequenceWords(c, 0, 0, 0, 0) && SequenceWords(d, 0, 0, 0, 0)
    ensures Words(SequenceBytes(a)) + Words(SequenceBytes(b)) + Words(SequenceBytes(c)) + Words(SequenceBytes(d)) == EXPECTED_50
  {
  }

  /** The test's table encodes as the known-good words 32 up to 96. */
  lemma {:induction false} LutWords(t: seq<Sequence>)
    requires TeensyTable(t)
    ensures Words(SequencesBytes(t)) == EXPECTED_20 + EXPECTED_30 + EXPECTED_40 + EXPECTED_50
  {
    var a, b, c, d := t[0..4], t[4..8], t[8..12], t[12..16];
    assert t == a + b + c + d;
    SequencesBytesAppend(a, b);
    SequencesBytesAppend(a + b, c);
    SequencesBytesAppend(a + b + c, d);
    WordsAppend(SequencesBytes(a), SequencesBytes(b));
    WordsAppend(SequencesBytes(a) + SequencesBytes(b), SequencesBytes(c));
    WordsAppend(SequencesBytes(a) + SequencesBytes(b) + SequencesBytes(c), SequencesBytes(d));
    assert t[2] == STOPPED && t[4] == STOPPED && t[6] == STOPPED && t[7] == STOPPED && t[8] == STOPPED;
    assert t[10] == STOPPED && t[12] == STOPPED && t[13] == STOPPED && t[14] == STOPPED && t[15] == STOPPED;
    ReadWords();
    ReadStatusWords();
    WriteEnableWords();
    EraseSectorWords();
    PageProgramWords();
    ChipEraseWords();
    StoppedWords();
    QuadWords(a);
    QuadWords(b);
    QuadWords(c);
    QuadWords(d);
    LutQuad20(t[0], t[1], t[2], t[3]);
    LutQuad30(t[4], t[5], t[6], t[7]);
    LutQuad40(t[8], t[9], t[10], t[11]);
    LutQuad50(t[12], t[13], t[14], t[15]);
  }

  // ---------------------------------------------------------------------------
  // The fields around the table

  /** Words 0 to 15, piece by piece. */
  lemma Join00(a: seq<u32>, b: seq<u32>, c: seq<u32>, d: seq<u32>, e: seq<u32>, f: seq<u32>)
    requires a == [0x4246_4346, 0x5601_0000] && b == seq(1, _ => 0) && c == [0x0002_0101] && d == [0]
    requires e == seq(2, _ => 0) && f == seq(9, _ => 0)
    ensures a + b + c + d + e + f == EXPECTED_00
  {
  }

  /** Words 0 to 15: tag, version, the timing bytes 01 01 02 00, and zeros. */
  lemma HeaderWords(s: seq<u8>)
    requires |s| == Fcb.FCB_SIZE && s[0x000..0x008] == Fcb.HEADER && s[0x008..0x00C] == Zeros(4)
    requires s[0x00C] == 1 && s[0x00D] == 1 && s[0x00E] == 2 && s[0x00F] == 0 && s[0x010] == 0 && s[0x011] == 0
    requires s[0x012..0x014] == Le16(0) && s[0x014..0x01C] == Zeros(8) && s[0x01C..0x044] == Zeros(0x28)
    ensures Words(s[0x000..0x040]) == EXPECTED_00
  {
    assert Fcb.HEADER == Le32(0x4246_4346) + Le32(0x5601_0000);
    WordsAppend(Le32(0x4246_4346), Le32(0x5601_0000));
    WordsLe32(0x4246_4346);
    WordsLe32(0x5601_0000);
    WordsZeros(1);
    Slice4(s, 0x00C);
    assert s[0x00C..0x010] == Le32(0x0002_0101);
    WordsLe32(0x0002_0101);
    assert s[0x012] == s[0x012..0x014][0] && s[0x013] == s[0x012..0x014][1];
    Slice4(s, 0x010);
    assert s[0x010..0x014] == Le32(0);
    WordsLe32(0);
    WordsZeros(2);
    SubSlice(s, 0x01C, 0x044, 0, 0x024);
    assert s[0x01C..0x040] == Zeros(0x24);
    WordsZeros(9);
    WordsSplit(s, 0x000, 0x008, 0x00C);
    WordsSplit(s, 0x000, 0x00C, 0x010);
    WordsSplit(s, 0x000, 0x010, 0x014);
    WordsSplit(s, 0x000, 0x014, 0x01C);
    WordsSplit(s, 0x000, 0x01C, 0x040);
    Join00(Words(s[0x000..0x008]), Words(s[0x008..0x00C]), Words(s[0x00C..0x010]), Words(s[0x010..0x014]),
           Words(s[0x014..0x01C]), Words(s[0x01C..0x040]));
  }

  /** Words 16 to 31, piece by piece. */
  lemma Join10(a: seq<u32>, b: seq<u32>, c: seq<u32>, d: seq<u32>, e: seq<u32>)
    requires a == seq(1, _ => 0) && b == [0x0003_0401] && c == seq(2, _ => 0)
    requires d == [0x0020_0000] + [0] + [0] + [0] && e == seq(8, _ => 0)
    ensures a + b + c + d + e == EXPECTED_10
  {
  }

  /** Words 16 to 31: the device bytes 01 04 03 00, the 2 MiB A1 size, and zeros. */
  lemma DeviceWords(s: seq<u8>)
    requires |s| == Fcb.FCB_SIZE && s[0x01C..0x044] == Zeros(0x28)
    requires s[0x044] == 1 && s[0x045] == 4 && s[0x046] == 3 && s[0x047..0x050] == Zeros(9)
    requires s[0x050..0x060] == Le32(0x0020_0000) + Le32(0) + Le32(0) + Le32(0) && s[0x060..0x080] == Zeros(0x20)
    ensures Words(s[0x040..0x080]) == EXPECTED_10
  {
    SubSlice(s, 0x01C, 0x044, 0x024, 0x028);
    assert s[0x040..0x044] == Zeros(4);
    WordsZeros(1);
    assert s[0x047] == s[0x047..0x050][0];
    Slice4(s, 0x044);
    assert s[0x044..0x048] == Le32(0x0003_0401);
    WordsLe32(0x0003_0401);
    SubSlice(s, 0x047, 0x050, 1, 9);
    assert s[0x048..0x050] == Zeros(8);
    WordsZeros(2);
    WordsAppend(Le32(0x0020_0000), Le32(0));
    WordsAppend(Le32(0x0020_0000) + Le32(0), Le32(0));
    WordsAppend(Le32(0x0020_0000) + Le32(0) + Le32(0), Le32(0));
    WordsLe32(0x0020_0000);
    WordsLe32(0);
    WordsZeros(8);
    WordsSplit(s, 0x040, 0x044, 0x048);
    WordsSplit(s, 0x040, 0x048, 0x050);
    WordsSplit(s, 0x040, 0x050, 0x060);
    WordsSplit(s, 0x040, 0x060, 0x080);
    Join10(Words(s[0x040..0x044]), Words(s[0x044..0x048]), Words(s[0x048..0x050]), Words(s[0x050..0x060]), Words(s[0x060..0x080]));
  }

  /** Words 112 to 127, piece by piece. */
  lemma Join70(a: seq<u32>, b: seq<u32>, c: seq<u32>, d: seq<u32>)
    requires a == [0x0000_0100] && b == [0x0000_1000] && c == [1] && d == seq(13, _ => 0)
    ensures a + b + c + d == EXPECTED_70
  {
  }

  /** Words 96 to 127: reserved zeros, then 256-byte pages, 4 KiB sectors, the 30 MHz code 1, and zeros. */
  lemma NorWords(s: seq<u8>)
    requires |s| == Fcb.FCB_SIZE && s[0x180..0x1C0] == Zeros(0x40)
    requires s[0x1C0..0x1C9] == Le32(0x0000_0100) + Le32(0x0000_1000) + [1] && s[0x1C9..0x200] == Zeros(0x37)
    ensures Words(s[0x180..0x1C0]) == EXPECTED_60 && Words(s[0x1C0..0x200]) == EXPECTED_70
  {
    WordsZeros(16);
    assert seq(16, _ => 0) == EXPECTED_60;
    var n := Le32(0x0000_0100) + Le32(0x0000_1000) + [1];
    SubSlice(s, 0x1C0, 0x1C9, 0, 4);
    SubSlice(s, 0x1C0, 0x1C9, 4, 8);
    assert n[0..4] == Le32(0x0000_0100) && n[4..8] == Le32(0x0000_1000);
    WordsLe32(0x0000_0100);
    WordsLe32(0x0000_1000);
    assert s[0x1C8] == n[8] && s[0x1C9] == s[0x1C9..0x200][0] && s[0x1CA] == s[0x1C9..0x200][1] && s[0x1CB] == s[0x1C9..0x200][2];
    Slice4(s, 0x1C8);
    assert s[0x1C8..0x1CC] == Le32(1);
    WordsLe32(1);
    SubSlice(s, 0x1C9, 0x200, 3, 0x037);
    assert s[0x1CC..0x200] == Zeros(0x34);
    WordsZeros(13);
    WordsSplit(s, 0x1C0, 0x1C4, 0x1C8);
    WordsSplit(s, 0x1C0, 0x1C8, 0x1CC);
    WordsSplit(s, 0x1C0, 0x1CC, 0x200);
    Join70(Words(s[0x1C0..0x1C4]), Words(s[0x1C4..0x1C8]), Words(s[0x1C8..0x1CC]), Words(s[0x1CC..0x200]));
  }

  // ---------------------------------------------------------------------------
  // The whole block

  /** The five regions' words, in order, are the known-good words. */
  lemma JoinAll(a: seq<u32>, b: seq<u32>, c: seq<u32>, d: seq<u32>, e: seq<u32>)
    requires a == EXPECTED_00 && b == EXPECTED_10 && c == EXPECTED_20 + EXPECTED_30 + EXPECTED_40 + EXPECTED_50
    requires d == EXPECTED_60 && e == EXPECTED_70
    ensures a + b + c + d + e == EXPECTED
  {
  }

  /** The header region of a build with the test's fields. */
  lemma {:induction false} TeensyHeader(st: Settings, family: Family)
    requires Buildable(st, family) && TeensyFieldSettings(st)
    ensures Words(BuildImage(st, family)[0x000..0x040]) == EXPECTED_00
  {
    BuildHeaderLayout(st, family, WAIT_TIME_OFFSET);
    BuildWaitLayout(st, family);
    CorrectedDeviceModeLayout(st, family);
    BuildDeviceLayout(st, family, WAIT_TIME_OFFSET);
    HeaderWords(BuildImage(st, family));
  }

  /** The device region of a build with the test's fields. */
  lemma {:induction false} TeensyDeviceRegion(st: Settings, family: Family)
    requires Buildable(st, family) && TeensyFieldSettings(st)
    ensures Words(BuildImage(st, family)[0x040..0x080]) == EXPECTED_10
  {
    BuildDeviceLayout(st, family, WAIT_TIME_OFFSET);
    FlexspiFields.CommonClockCodes(family);
    assert st.flashSize[0] == 0x0020_0000 && st.flashSize[1] == 0 && st.flashSize[2] == 0 && st.flashSize[3] == 0;
    DeviceWords(BuildImage(st, family));
  }

  /** The lookup table region of a build with the test's table. */
  lemma {:induction false} TeensyLut(st: Settings, family: Family)
    requires Buildable(st, family) && TeensyTable(st.lookupTable)
    ensures Words(BuildImage(st, family)[0x080..0x180]) == EXPECTED_20 + EXPECTED_30 + EXPECTED_40 + EXPECTED_50
  {
    BuildLutLayout(st, family, WAIT_TIME_OFFSET);
    LutWords(st.lookupTable);
  }

  /** The NOR region of a build with the test's NOR block. */
  lemma {:induction false} TeensyNor(st: Settings, family: Family)
    requires Buildable(st, family) && st.deviceType == SerialNOR(NOR_CB)
    ensures Words(BuildImage(st, family)[0x180..0x1C0]) == EXPECTED_60
    ensures Words(BuildImage(st, family)[0x1C0..0x200]) == EXPECTED_70
  {
    BuildNorLayout(st, family, WAIT_TIME_OFFSET);
    NorWords(BuildImage(st, family));
  }

  /**
   * The test's settings build the known-good FCB: read as 128 little-endian
   * words, the image is exactly the expected words, on every chip family the
   * settings are valid for.
   */
  lemma {:induction false} Teensy4Image(st: Settings, family: Family)
    requires Buildable(st, family) && TeensySettings(st)
    ensures Words(BuildImage(st, family)) == EXPECTED
  {
    var s := BuildImage(st, family);
    TeensyHeader(st, family);
    TeensyDeviceRegion(st, family);
    TeensyLut(st, family);
    TeensyNor(st, family);
    assert s[0x000..0x200] == s;
    WordsSplit(s, 0x000, 0x040, 0x080);
    WordsSplit(s, 0x000, 0x080, 0x180);
    WordsSplit(s, 0x000, 0x180, 0x1C0);
    WordsSplit(s, 0x000, 0x1C0, 0x200);
    JoinAll(Words(s[0x000..0x040]), Words(s[0x040..0x080]), Words(s[0x080..0x180]), Words(s[0x180..0x1C0]), Words(s[0x1C0..0x200]));
  }

  /** The test's table: a fresh table with the six commands written at their slots. */
  method TeensyLookupTable() returns (lut: SerialFlashLookup.LookupTable)
    ensures fresh(lut) && fresh(lut.slots) && lut.Valid()
    ensures TeensyTable(lut.Contents())
  {
    lut := new SerialFlashLookup.LookupTable();
    lut.SetIndex(FlexspiLookup.Read, SEQ_READ);
    lut.SetIndex(FlexspiLookup.ReadStatus, SEQ_READ_STATUS);
    lut.SetIndex(FlexspiLookup.WriteEnable, SEQ_WRITE_ENABLE);
    lut.SetIndex(FlexspiLookup.EraseSector, SEQ_ERASE_SECTOR);
    lut.SetIndex(FlexspiLookup.PageProgram, SEQ_PAGE_PROGRAM);
    lut.SetIndex(FlexspiLookup.ChipErase, SEQ_CHIP_ERASE);
  }

  /** The test's builder: the NOR block and `lut`, then the read strobe, chip select and column width fields set as the test sets them. */
  method TeensyBuilder(family: Family, lut: SerialFlashLookup.LookupTable) returns (builder: FCBBuilder)
    requires lut.Valid()
    ensures fresh(builder) && fresh(builder.flashSize) && fresh(builder.flashSize.sizes)
    ensures builder.Valid() && builder.family == family && builder.lookupTable == lut
    ensures builder.State() == Settings(FlexspiFields.LoopbackFromDQSPad, 0x01, 0x02, FlexspiFields.OtherDevices, Disabled,
                                       FlexspiFields.WAIT_TIME_DISABLED, SerialNOR(NOR_CB), FlexspiFields.Single, MHz30,
                                       [0, 0, 0, 0], lut.Contents())
  {
    builder := new FCBBuilder(family, SerialNOR(NOR_CB), lut);
    builder.SetReadSampleClkSrc(FlexspiFields.LoopbackFromDQSPad);
    builder.SetCsHoldTime(0x01);
    builder.SetCsSetupTime(0x02);
    builder.SetColumnAddressWidth(FlexspiFields.OtherDevices);
  }

  /** The rest of the test's fields: device mode and wait time disabled, a 2 MiB A1 flash, quad pads at 60 MHz. */
  method TeensyDevice(builder: FCBBuilder)
    requires builder.Valid()
    modifies builder, builder.flashSize.sizes
    ensures builder.Valid()
    ensures builder.State() == old(builder.State()).(deviceModeConfiguration := Disabled,
              waitTimeCfgCommands := FlexspiFields.WAIT_TIME_DISABLED, flashSize := old(builder.State()).flashSize[0 := 0x0020_0000],
              serialFlashPadType := FlexspiFields.Quad, serialClkFreq := MHz60)
  {
    builder.SetDeviceModeConfiguration(Disabled);
    builder.SetWaitTimeCfgCommands(FlexspiFields.WAIT_TIME_DISABLED);
    builder.SetFlashSize(FlexspiFields.A1, 0x0020_0000);
    builder.SetSerialClkFreq(MHz60);
    builder.SetSerialFlashPadType(FlexspiFields.Quad);
  }

  /**
   * The test's wait time is zero, so the source's image, with the wait time
   * one byte late, reads as the same known-good words: the test cannot see the
   * misplaced field.
   */
  lemma Teensy4ImageAsWritten(st: Settings, family: Family)
    requires Buildable(st, family) && TeensySettings(st)
    ensures Words(BuildImageAsWritten(st, family)) == EXPECTED
  {
    NoWaitAgrees(st, family);
    Teensy4Image(st, family);
  }

  /** Building with the test's settings gives the known-good words. */
  method TeensyBuild(builder: FCBBuilder) returns (fcb: Fcb.Fcb)
    requires builder.Valid() && TeensySettings(builder.State())
    ensures fresh(fcb) && fcb.Valid()
    ensures Words(fcb.bytes[..]) == EXPECTED
  {
    fcb := builder.Build();
    Teensy4ImageAsWritten(builder.State(), builder.family);
  }

  /**
   * The test, step by step: fill a fresh table, make a builder with the test's
   * fields, and build. The FCB holds the known-good words, whichever family
   * the builder targets.
   */
  method Teensy4Fcb(family: Family) returns (fcb: Fcb.Fcb)
    ensures fresh(fcb) && fcb.Valid()
    ensures Words(fcb.bytes[..]) == EXPECTED
  {
    var lut := TeensyLookupTable();
    ghost var table := lut.Contents();
    var builder := TeensyBuilder(family, lut);
    TeensyDevice(builder);
    assert builder.State().lookupTable == table;
    assert TeensyFieldSettings(builder.State());
    fcb := TeensyBuild(builder);
  }
}
