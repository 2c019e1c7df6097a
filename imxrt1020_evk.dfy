/**
 * The common FlexSPI block of the i.MX RT1020 EVK, built with the newer API:
 * a quad I/O fast read in the read slot, version 1.4.0, the sample clock
 * looped back from the DQS pad, 100 MHz on four pads, and an 8 MiB flash on A1.
 */
module Imxrt1020Evk {
  import opened Bytes
  import opened Chip
  import opened FlexspiLut
  import opened FlexspiLookup
  import opened FlexspiFields
  import opened Flexspi

  /** The ISSI IS25LP064A quad I/O fast read: command 0xEB, 24 address bits, 6 dummy cycles, then data, all on four pads after the command. */
  const SEQ_READ: Sequence := Sequence([
    NewInstr(SDR_CMD, One, 0xEB), NewInstr(SDR_RADDR, Four, 0x18),
    NewInstr(SDR_DUMMY, Four, 0x06), NewInstr(SDR_READ, Four, 0x04),
    STOP, STOP, STOP, STOP])

  /** A fresh table with the read sequence in the read slot. */
  const LUT: LookupTable := SetCommand(NewTable(), Read, SEQ_READ)

  /** The setter chain of the EVK, in the order the repository's test applies it. */
  function Block(): (b: ConfigurationBlock)
    ensures b.lookupTable == LUT
  {
    var b0 := NewBlock(LUT);
    var b1 := WithVersion(b0, NewVersion(1, 4, 0));
    var b2 := WithReadSampleClkSrc(b1, LoopbackFromDQSPad);
    var b3 := WithCsHoldTime(b2, 0x03);
    var b4 := WithCsSetupTime(b3, 0x03);
    var b5 := WithColumnAddressWidth(b4, OtherDevices);
    var b6 := WithDeviceModeConfiguration(b5, Disabled);
    var b7 := WithWaitTimeCfgCommands(b6, WAIT_TIME_DISABLED);
    var b8 := WithFlashSize(b7, A1, 0x0080_0000);
    var b9 := WithSerialClkFreq(b8, Imxrt1020, MHz100);
    WithSerialFlashPadType(b9, Quad)
  }

  /** Byte 0x046 is the 100 MHz code of the 1020, which has no 120 MHz option: 6. */
  lemma ClockCodeOn1020()
    ensures SerialClockCode(Imxrt1020, MHz100) == Some(6)
  {
  }

  /** The block the chain yields, written out field by field. */
  const EVK_BLOCK: ConfigurationBlock := ConfigurationBlock(
    TAG, NewVersion(1, 4, 0), Zeros(4), LoopbackFromDQSPad, 0x03, 0x03,
    OtherDevices, 0, Zeros(1), WAIT_TIME_DISABLED, NewDeviceModeSequence(0, 0), 0, 0, Zeros(3), Zeros(12), Zeros(4),
    Zeros(12), Zeros(4), 0, 0, Quad, 6, 0, Zeros(8), [0x0080_0000, 0, 0, 0], 0, 0, 0, 0, 0, 0, 0, 0, 0, LUT, Zeros(48), Zeros(16))

  /** Each setter of the chain changes its own field and no other. */
  lemma VersionStep(b: ConfigurationBlock)
    ensures WithVersion(b, NewVersion(1, 4, 0)) == b.(version := NewVersion(1, 4, 0))
  {
  }

  lemma SampleClockStep(b: ConfigurationBlock)
    ensures WithReadSampleClkSrc(b, LoopbackFromDQSPad) == b.(readSampleClkSrc := LoopbackFromDQSPad)
  {
  }

  lemma CsHoldStep(b: ConfigurationBlock)
    ensures WithCsHoldTime(b, 0x03) == b.(csHoldTime := 0x03)
  {
  }

  lemma CsSetupStep(b: ConfigurationBlock)
    ensures WithCsSetupTime(b, 0x03) == b.(csSetupTime := 0x03)
  {
  }

  lemma ColumnWidthStep(b: ConfigurationBlock)
    ensures WithColumnAddressWidth(b, OtherDevices) == b.(columnAddressWidth := OtherDevices)
  {
  }

  lemma DeviceModeStep(b: ConfigurationBlock)
    ensures WithDeviceModeConfiguration(b, Disabled) == b.(deviceModeConfiguration := 0)
  {
  }

  lemma WaitTimeStep(b: ConfigurationBlock)
    ensures WithWaitTimeCfgCommands(b, WAIT_TIME_DISABLED) == b.(waitTimeCfgCommands := WAIT_TIME_DISABLED)
  {
  }

  lemma FlashSizeStep(b: ConfigurationBlock)
    ensures WithFlashSize(b, A1, 0x0080_0000) == b.(serialFlashSizes := b.serialFlashSizes[0 := 0x0080_0000])
  {
  }

  lemma ClockStep(b: ConfigurationBlock)
    ensures WithSerialClkFreq(b, Imxrt1020, MHz100) == b.(serialClkFreq := 6)
  {
    ClockCodeOn1020();
  }

  lemma PadTypeStep(b: ConfigurationBlock)
    ensures WithSerialFlashPadType(b, Quad) == b.(serialFlashPadType := Quad)
  {
  }

  /** The chain is the written-out block. */
  lemma BlockIsEvkBlock()
    ensures Block() == EVK_BLOCK
  {
    var b0 := NewBlock(LUT);
    var b1 := WithVersion(b0, NewVersion(1, 4, 0));
    var b2 := WithReadSampleClkSrc(b1, LoopbackFromDQSPad);
    var b3 := WithCsHoldTime(b2, 0x03);
    var b4 := WithCsSetupTime(b3, 0x03);
    var b5 := WithColumnAddressWidth(b4, OtherDevices);
    var b6 := WithDeviceModeConfiguration(b5, Disabled);
    var b7 := WithWaitTimeCfgCommands(b6, WAIT_TIME_DISABLED);
    var b8 := WithFlashSize(b7, A1, 0x0080_0000);
    var b9 := WithSerialClkFreq(b8, Imxrt1020, MHz100);
    VersionStep(b0);
    SampleClockStep(b1);
    CsHoldStep(b2);
    CsSetupStep(b3);
    ColumnWidthStep(b4);
    DeviceModeStep(b5);
    WaitTimeStep(b6);
    FlashSizeStep(b7);
    ClockStep(b8);
    PadTypeStep(b9);
    assert b7.serialFlashSizes[0 := 0x0080_0000] == [0x0080_0000, 0, 0, 0];
  }

  lemma VersionWord()
    ensures NewVersion(1, 4, 0).value == 0x5601_0400
  {
  }

  /** The tag and the version 1.4.0 word. */
  lemma EvkTagAndVersion()
    ensures WordAt(Serialize(EVK_BLOCK), 0) == 0x4246_4346 && WordAt(Serialize(EVK_BLOCK), 1) == 0x5601_0400
  {
    HeaderLayout(EVK_BLOCK);
    Le32RoundTrip(TAG);
    VersionWord();
    Le32RoundTrip(0x5601_0400);
  }

  /** The reserved word, then sample clock source 1, CS hold and setup times 3 and column width 0. */
  lemma EvkTimings()
    ensures WordAt(Serialize(EVK_BLOCK), 2) == 0 && WordAt(Serialize(EVK_BLOCK), 3) == 0x0003_0301
  {
    var s := Serialize(EVK_BLOCK);
    HeaderLayout(EVK_BLOCK);
    TimingLayout(EVK_BLOCK);
    assert Zeros(4) == [0, 0, 0, 0];
    Slice4(s, 0x00C);
  }

  /** Pad and clock codes, and the A1 flash size. */
  lemma EvkFlash()
    ensures var s := Serialize(EVK_BLOCK);
            s[0x045] == 4 && s[0x046] == 6 && WordAt(s, 0x14) == 0x0080_0000
  {
    FlashLayout(EVK_BLOCK);
    Le32RoundTrip(0x0080_0000);
  }

  /** The lookup table opens with the read sequence. */
  lemma EvkLut()
    ensures var s := Serialize(EVK_BLOCK);
            WordAt(s, 0x20) == 0x0A18_04EB && WordAt(s, 0x21) == 0x2604_3206 && s[0x088..0x180] == Zeros(0xF8)
  {
    var s := Serialize(EVK_BLOCK);
    var t := LookupTableBytes(LUT);
    TailLayout(EVK_BLOCK);
    LutBytes();
    SubSlice(s, 0x080, 0x180, 0x00, 0x04);
    SubSlice(s, 0x080, 0x180, 0x04, 0x08);
    SubSlice(s, 0x080, 0x180, 0x08, 0x100);
  }

  lemma EvkZerosDeviceMode()
    ensures Serialize(EVK_BLOCK)[0x010..0x01C] == Zeros(0x0C)
  {
    Offsets0();
    Offsets1();
    ZeroedIsZeros();
    assert Le16(0) == Zeros(2);
    assert Le32(0) == Zeros(4);
    ZeroRange(EVK_BLOCK, 7, 12);
  }

  lemma EvkZerosLow()
    ensures Serialize(EVK_BLOCK)[0x01C..0x045] == Zeros(0x29)
  {
    Offsets1();
    Offsets2();
    assert Le32(0) == Zeros(4);
    ZeroRange(EVK_BLOCK, 12, 20);
  }

  lemma EvkZerosMiddle()
    ensures Serialize(EVK_BLOCK)[0x047..0x050] == Zeros(9)
  {
    Offsets2();
    ZeroRange(EVK_BLOCK, 22, 24);
  }

  lemma EvkZerosHigh()
    ensures var s := Serialize(EVK_BLOCK);
            s[0x054..0x080] == Zeros(0x2C) && s[0x180..0x1C0] == Zeros(0x40)
  {
    Offsets3();
    Offsets4();
    assert Le16(0) == Zeros(2);
    assert Le32(0) == Zeros(4);
    ZeroRange(EVK_BLOCK, 25, 37);
    ZeroRange(EVK_BLOCK, 38, 40);
  }

  /**
   * What the repository's expected image says of the common block: the version
   * word reads 0x5601_0400, the word at 0x00C reads 0x0003_0301, pad and clock
   * codes are 4 and 6, the A1 size is 0x0080_0000, the read sequence opens the
   * LUT and every other byte is zero. (The expected image also has device type
   * 1 at 0x044; the serial NOR block sets that, so here it is zero.)
   */
  predicate EvkImage(s: seq<u8>)
  {
    |s| == 448
    && WordAt(s, 0) == 0x4246_4346 && WordAt(s, 1) == 0x5601_0400 && WordAt(s, 2) == 0
    && WordAt(s, 3) == 0x0003_0301 && s[0x010..0x01C] == Zeros(0x0C) && s[0x01C..0x045] == Zeros(0x29)
    && s[0x045] == 4 && s[0x046] == 6 && s[0x047..0x050] == Zeros(9)
    && WordAt(s, 0x14) == 0x0080_0000 && s[0x054..0x080] == Zeros(0x2C)
    && WordAt(s, 0x20) == 0x0A18_04EB && WordAt(s, 0x21) == 0x2604_3206
    && s[0x088..0x180] == Zeros(0xF8) && s[0x180..0x1C0] == Zeros(0x40)
  }

  /** The setter chain yields the expected image. */
  lemma Imxrt1020EvkImage()
    ensures EvkImage(Serialize(Block()))
  {
    BlockIsEvkBlock();
    EvkTagAndVersion();
    EvkTimings();
    EvkFlash();
    EvkLut();
    EvkZerosDeviceMode();
    EvkZerosLow();
    EvkZerosMiddle();
    EvkZerosHigh();
  }

  /** The LUT's bytes: the read sequence's sixteen, then zeros. */
  lemma LutBytes()
    ensures LookupTableBytes(LUT)[0x00..0x04] == [0xEB, 0x04, 0x18, 0x0A]
    ensures LookupTableBytes(LUT)[0x04..0x08] == [0x06, 0x32, 0x04, 0x26]
    ensures LookupTableBytes(LUT)[0x08..0x100] == Zeros(0xF8)
  {
    QuadIoFastReadCommand();
    StoppedIsZeros();
    var t := LookupTableBytes(LUT);
    forall i | 0x10 <= i < 0x100 ensures t[i] == 0 {
      var k := i / 16;
      assert LUT.slots[k] == STOPPED;
      assert t[i] == t[16 * k..16 * k + 16][i - 16 * k];
    }
    forall i | 0x00 <= i < 0x10 ensures t[i] == t[0..16][i] {
    }
  }
}
