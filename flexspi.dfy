/**
 * The newer FlexSPI configuration block: a packed 448-byte record, built by
 * value from a default and a chain of setters. Its serialisation is the
 * concatenation of the fields' little-endian encodings in declaration order.
 */
module Flexspi {
  import opened Bytes
  import opened Chip
  import opened FlexspiLut
  import opened FlexspiLookup
  import opened FlexspiFields

  /** A version word: `'V'` in the top byte, then major, minor and bugfix. */
  datatype Version = Version(value: u32)

  /** `Version::new(major, minor, bugfix)`: stored little-endian as bugfix, minor, major, `'V'`. */
  function NewVersion(major: u8, minor: u8, bugfix: u8): (v: Version)
    ensures Le32(v.value) == [bugfix, minor, major, 'V' as u8]
  {
    Version((('V' as u8 as u32) << 24) | ((major as u32) << 16) | ((minor as u32) << 8) | (bugfix as u32))
  }

  /** ASCII `FCFB`, read as a little-endian word. */
  const TAG: u32 := 0x4246_4346

  /** The default version, 1.0.0. */
  const VERSION_DEFAULT: Version := NewVersion(1, 0, 0)

  const RECOMMENDED_CS_HOLD_TIME: u8 := 0x03
  const RECOMMENDED_CS_SETUP_TIME: u8 := 0x03

  /** The tag is the text `FCFB` in memory, and the default version word is `0x5601_0000`. */
  lemma TagAndDefaultVersion()
    ensures Le32(TAG) == ['F' as u8, 'C' as u8, 'F' as u8, 'B' as u8]
    ensures VERSION_DEFAULT.value == 0x5601_0000
  {
    assert FromLe32(Le32(VERSION_DEFAULT.value)) == FromLe32([0, 0, 1, 'V' as u8]);
  }

  type Bytes1 = s: seq<u8> | |s| == 1 witness [0]
  type Bytes3 = s: seq<u8> | |s| == 3 witness [0, 0, 0]
  type Bytes4 = s: seq<u8> | |s| == 4 witness [0, 0, 0, 0]
  type Bytes8 = s: seq<u8> | |s| == 8 witness [0, 0, 0, 0, 0, 0, 0, 0]
  type Bytes12 = s: seq<u8> | |s| == 12 witness [0, 0, 0, 0, 0, 0, 0, 0, 0, 0, 0, 0]
  type Bytes16 = s: seq<u8> | |s| == 16 witness [0, 0, 0, 0, 0, 0, 0, 0, 0, 0, 0, 0, 0, 0, 0, 0]
  type Bytes48 = s: seq<u8> | |s| == 48 witness Zeros(48)
  type Words4 = s: seq<u32> | |s| == 4 witness [0, 0, 0, 0]

  /**
   * The FlexSPI configuration block, field by field. The serial clock frequency is
   * held as the code it has on the chip family the block is built for.
   */
  datatype ConfigurationBlock = ConfigurationBlock(
    tag: u32,
    version: Version,
    reserved0: Bytes4,
    readSampleClkSrc: ReadSampleClockSource,
    csHoldTime: u8,
    csSetupTime: u8,
    columnAddressWidth: ColumnAddressWidth,
    deviceModeConfiguration: u8,
    reserved1: Bytes1,
    waitTimeCfgCommands: WaitTimeConfigurationCommands,
    deviceModeSequence: DeviceModeSequence,
    deviceModeArg: u32,
    configCmdEnable: u8,
    reserved2: Bytes3,
    configCmdSeqs: Bytes12,
    reserved3: Bytes4,
    cfgCmdArgs: Bytes12,
    reserved4: Bytes4,
    controllerMiscOptions: u32,
    deviceType: u8,
    serialFlashPadType: FlashPadType,
    serialClkFreq: u8,
    lutCustomSeqEnable: u8,
    reserved5: Bytes8,
    serialFlashSizes: Words4,
    csPadSettingOverride: u32,
    sclkPadSettingOverride: u32,
    dataPadSettingOverride: u32,
    dqsPadSettingOverride: u32,
    timeoutMs: u32,
    commandInterval: u32,
    dataValidTime: u32,
    busyOffset: u16,
    busyBitPolarity: u16,
    lookupTable: LookupTable,
    lutCustomSeq: Bytes48,
    reserved6: Bytes16)

  /** Widths of the fields in declaration order, eight at a time (the four flash sizes are four fields). */
  const W0: seq<nat> := [4, 4, 4, 1, 1, 1, 1, 1]
  const W1: seq<nat> := [1, 2, 4, 4, 1, 3, 12, 4]
  const W2: seq<nat> := [12, 4, 4, 1, 1, 1, 1, 8]
  const W3: seq<nat> := [4, 4, 4, 4, 4, 4, 4, 4]
  const W4: seq<nat> := [4, 4, 4, 2, 2, 256, 48, 16]
  const WIDTHS: seq<nat> := W0 + W1 + W2 + W3 + W4

  /** Fields 0 to 7: tag, version, reserved, sample clock source, CS hold and setup times, column width, device mode flag. */
  function Group0(b: ConfigurationBlock): (parts: seq<seq<u8>>)
    ensures HasWidths(parts, W0)
  {
    [Le32(b.tag), Le32(b.version.value), b.reserved0, [ReadSampleClockSourceCode(b.readSampleClkSrc)], [b.csHoldTime], [b.csSetupTime], [ColumnAddressWidthCode(b.columnAddressWidth)], [b.deviceModeConfiguration]]
  }

  /** Fields 8 to 15: reserved, wait time, device mode sequence and argument, configuration commands. */
  function Group1(b: ConfigurationBlock): (parts: seq<seq<u8>>)
    ensures HasWidths(parts, W1)
  {
    [b.reserved1, Le16(b.waitTimeCfgCommands.factor), DeviceModeSequenceBytes(b.deviceModeSequence), Le32(b.deviceModeArg), [b.configCmdEnable], b.reserved2, b.configCmdSeqs, b.reserved3]
  }

  /** Fields 16 to 23: configuration command arguments, controller options, device type, pad type, clock, custom LUT flag, reserved. */
  function Group2(b: ConfigurationBlock): (parts: seq<seq<u8>>)
    ensures HasWidths(parts, W2)
  {
    [b.cfgCmdArgs, b.reserved4, Le32(b.controllerMiscOptions), [b.deviceType], [FlashPadTypeCode(b.serialFlashPadType)], [b.serialClkFreq], [b.lutCustomSeqEnable], b.reserved5]
  }

  /** The four flash sizes, one word each. */
  function SizesParts(s: Words4): (parts: seq<seq<u8>>)
    ensures |parts| == 4
  {
    [Le32(s[0]), Le32(s[1]), Le32(s[2]), Le32(s[3])]
  }

  lemma WordUpdate(s: seq<u32>, k: nat, n: u32, i: nat)
    requires k < |s| && i < |s|
    ensures Le32(s[k := n][i]) == if i == k then Le32(n) else Le32(s[i])
  {
  }

  /** Setting one size replaces that size's word. */
  lemma SizesPartsUpdate(s: Words4, k: nat, n: u32)
    requires k < 4
    ensures SizesParts(s[k := n]) == SizesParts(s)[k := Le32(n)]
  {
    WordUpdate(s, k, n, 0);
    WordUpdate(s, k, n, 1);
    WordUpdate(s, k, n, 2);
    WordUpdate(s, k, n, 3);
  }

  /** Fields 24 to 31: the four flash sizes and the four pad setting overrides. */
  function Group3(b: ConfigurationBlock): (parts: seq<seq<u8>>)
    ensures HasWidths(parts, W3)
  {
    SizesParts(b.serialFlashSizes) + [Le32(b.csPadSettingOverride), Le32(b.sclkPadSettingOverride), Le32(b.dataPadSettingOverride), Le32(b.dqsPadSettingOverride)]
  }

  /** Fields 32 to 39: timeouts and intervals, busy bit, lookup table, custom LUT sequence, reserved. */
  function Group4(b: ConfigurationBlock): (parts: seq<seq<u8>>)
    ensures HasWidths(parts, W4)
  {
    [Le32(b.timeoutMs), Le32(b.commandInterval), Le32(b.dataValidTime), Le16(b.busyOffset), Le16(b.busyBitPolarity), LookupTableBytes(b.lookupTable), b.lutCustomSeq, b.reserved6]
  }

  /** The encodings of all forty fields, in declaration order. */
  function Fields(b: ConfigurationBlock): (parts: seq<seq<u8>>)
    ensures HasWidths(parts, WIDTHS)
  {
    HasWidthsAppend(Group0(b), W0, Group1(b), W1);
    HasWidthsAppend(Group0(b) + Group1(b), W0 + W1, Group2(b), W2);
    HasWidthsAppend(Group0(b) + Group1(b) + Group2(b), W0 + W1 + W2, Group3(b), W3);
    HasWidthsAppend(Group0(b) + Group1(b) + Group2(b) + Group3(b), W0 + W1 + W2 + W3, Group4(b), W4);
    Group0(b) + Group1(b) + Group2(b) + Group3(b) + Group4(b)
  }

  /** Group `g` of `r` is group `g` of `b`, with field `k` replaced by `x` when `g` is the group `j` falls in. */
  predicate ReplacedIn(j: nat, g: nat, x: seq<u8>, gr: seq<seq<u8>>, gb: seq<seq<u8>>)
    requires |gb| == 8
  {
    gr == if j / 8 == g then gb[j % 8 := x] else gb
  }

  /** `r` is `b` with field `j` (field `j % 8` of group `j / 8`) encoded as `x` and every other field alike. */
  predicate ReplacesField(b: ConfigurationBlock, r: ConfigurationBlock, j: nat, x: seq<u8>)
  {
    ReplacedIn(j, 0, x, Group0(r), Group0(b)) && ReplacedIn(j, 1, x, Group1(r), Group1(b))
    && ReplacedIn(j, 2, x, Group2(r), Group2(b)) && ReplacedIn(j, 3, x, Group3(r), Group3(b))
    && ReplacedIn(j, 4, x, Group4(r), Group4(b))
  }

  /** Replacing a field of one group replaces that field of the joined list. */
  lemma FieldsUpdate(b: ConfigurationBlock, r: ConfigurationBlock, j: nat, x: seq<u8>)
    requires j < 40 && ReplacesField(b, r, j, x)
    ensures Fields(r) == Fields(b)[j := x]
  {
    var g0, g1, g2, g3, g4 := Group0(b), Group1(b), Group2(b), Group3(b), Group4(b);
    UpdateAppend(g0 + g1 + g2 + g3, g4, j, x);
    if j < 32 {
      UpdateAppend(g0 + g1 + g2, g3, j, x);
    }
    if j < 24 {
      UpdateAppend(g0 + g1, g2, j, x);
    }
    if j < 16 {
      UpdateAppend(g0, g1, j, x);
    }
  }

  /**
   * Replacing field `j` and leaving every other field alone writes the new
   * encoding at the field's offset `off`.
   */
  lemma FieldsReplace(b: ConfigurationBlock, r: ConfigurationBlock, j: nat, off: nat, x: seq<u8>)
    requires j < 40 && |x| == WIDTHS[j] && off == SumTo(WIDTHS, j)
    requires ReplacesField(b, r, j, x)
    ensures off + |x| <= 448
    ensures Serialize(r) == Splice(Serialize(b), off, x)
  {
    FieldsUpdate(b, r, j, x);
    ConcatReplace(Fields(b), WIDTHS, j, x);
    assert Serialize(b) == Concat(Fields(b));
  }

  /** The offset of every field, eight fields at a time. */
  lemma Offsets0()
    ensures SumTo(WIDTHS, 1) == 0x004
         && SumTo(WIDTHS, 2) == 0x008
         && SumTo(WIDTHS, 3) == 0x00C
         && SumTo(WIDTHS, 4) == 0x00D
         && SumTo(WIDTHS, 5) == 0x00E
         && SumTo(WIDTHS, 6) == 0x00F
         && SumTo(WIDTHS, 7) == 0x010
         && SumTo(WIDTHS, 8) == 0x011
  {
    assert SumTo(WIDTHS, 1) == 0x004;
    assert SumTo(WIDTHS, 2) == 0x008;
    assert SumTo(WIDTHS, 3) == 0x00C;
    assert SumTo(WIDTHS, 4) == 0x00D;
    assert SumTo(WIDTHS, 5) == 0x00E;
    assert SumTo(WIDTHS, 6) == 0x00F;
    assert SumTo(WIDTHS, 7) == 0x010;
    assert SumTo(WIDTHS, 8) == 0x011;
  }

  lemma Offsets1()
    ensures SumTo(WIDTHS, 9) == 0x012
         && SumTo(WIDTHS, 10) == 0x014
         && SumTo(WIDTHS, 11) == 0x018
         && SumTo(WIDTHS, 12) == 0x01C
         && SumTo(WIDTHS, 13) == 0x01D
         && SumTo(WIDTHS, 14) == 0x020
         && SumTo(WIDTHS, 15) == 0x02C
         && SumTo(WIDTHS, 16) == 0x030
  {
    Offsets0();
    assert SumTo(WIDTHS, 9) == 0x012;
    assert SumTo(WIDTHS, 10) == 0x014;
    assert SumTo(WIDTHS, 11) == 0x018;
    assert SumTo(WIDTHS, 12) == 0x01C;
    assert SumTo(WIDTHS, 13) == 0x01D;
    assert SumTo(WIDTHS, 14) == 0x020;
    assert SumTo(WIDTHS, 15) == 0x02C;
    assert SumTo(WIDTHS, 16) == 0x030;
  }

  lemma Offsets2()
    ensures SumTo(WIDTHS, 17) == 0x03C
         && SumTo(WIDTHS, 18) == 0x040
         && SumTo(WIDTHS, 19) == 0x044
         && SumTo(WIDTHS, 20) == 0x045
         && SumTo(WIDTHS, 21) == 0x046
         && SumTo(WIDTHS, 22) == 0x047
         && SumTo(WIDTHS, 23) == 0x048
         && SumTo(WIDTHS, 24) == 0x050
  {
    Offsets1();
    assert SumTo(WIDTHS, 17) == 0x03C;
    assert SumTo(WIDTHS, 18) == 0x040;
    assert SumTo(WIDTHS, 19) == 0x044;
    assert SumTo(WIDTHS, 20) == 0x045;
    assert SumTo(WIDTHS, 21) == 0x046;
    assert SumTo(WIDTHS, 22) == 0x047;
    assert SumTo(WIDTHS, 23) == 0x048;
    assert SumTo(WIDTHS, 24) == 0x050;
  }

  lemma Offsets3()
    ensures SumTo(WIDTHS, 25) == 0x054
         && SumTo(WIDTHS, 26) == 0x058
         && SumTo(WIDTHS, 27) == 0x05C
         && SumTo(WIDTHS, 28) == 0x060
         && SumTo(WIDTHS, 29) == 0x064
         && SumTo(WIDTHS, 30) == 0x068
         && SumTo(WIDTHS, 31) == 0x06C
         && SumTo(WIDTHS, 32) == 0x070
  {
    Offsets2();
    assert SumTo(WIDTHS, 25) == 0x054;
    assert SumTo(WIDTHS, 26) == 0x058;
    assert SumTo(WIDTHS, 27) == 0x05C;
    assert SumTo(WIDTHS, 28) == 0x060;
    assert SumTo(WIDTHS, 29) == 0x064;
    assert SumTo(WIDTHS, 30) == 0x068;
    assert SumTo(WIDTHS, 31) == 0x06C;
    assert SumTo(WIDTHS, 32) == 0x070;
  }

  lemma Offsets4()
    ensures SumTo(WIDTHS, 33) == 0x074
         && SumTo(WIDTHS, 34) == 0x078
         && SumTo(WIDTHS, 35) == 0x07C
         && SumTo(WIDTHS, 36) == 0x07E
         && SumTo(WIDTHS, 37) == 0x080
         && SumTo(WIDTHS, 38) == 0x180
         && SumTo(WIDTHS, 39) == 0x1B0
         && SumTo(WIDTHS, 40) == 0x1C0
  {
    Offsets3();
    assert SumTo(WIDTHS, 33) == 0x074;
    assert SumTo(WIDTHS, 34) == 0x078;
    assert SumTo(WIDTHS, 35) == 0x07C;
    assert SumTo(WIDTHS, 36) == 0x07E;
    assert SumTo(WIDTHS, 37) == 0x080;
    assert SumTo(WIDTHS, 38) == 0x180;
    assert SumTo(WIDTHS, 39) == 0x1B0;
    assert SumTo(WIDTHS, 40) == 0x1C0;
  }

  /** The block's bytes, exactly 448 of them. */
  function Serialize(b: ConfigurationBlock): (r: seq<u8>)
    ensures |r| == 448
  {
    ConcatLength(Fields(b), WIDTHS);
    Offsets4();
    Concat(Fields(b))
  }

  /** Field `j` of the block lies at its offset. */
  lemma FieldAt(b: ConfigurationBlock, j: nat)
    requires j < 40
    ensures SumTo(WIDTHS, j) + WIDTHS[j] <= 448
    ensures Serialize(b)[SumTo(WIDTHS, j)..SumTo(WIDTHS, j) + WIDTHS[j]] == Fields(b)[j]
  {
    ConcatSlice(Fields(b), WIDTHS, j);
  }

  /** A one-byte field, as the byte at its offset. */
  lemma ByteFieldAt(b: ConfigurationBlock, j: nat)
    requires j < 40 && WIDTHS[j] == 1
    ensures SumTo(WIDTHS, j) < 448
    ensures Serialize(b)[SumTo(WIDTHS, j)] == Fields(b)[j][0]
  {
    FieldAt(b, j);
    assert Serialize(b)[SumTo(WIDTHS, j)] == Serialize(b)[SumTo(WIDTHS, j)..SumTo(WIDTHS, j) + 1][0];
  }

  /** Where the header words sit: tag, version and the reserved word. */
  lemma HeaderLayout(b: ConfigurationBlock)
    ensures var s := Serialize(b);
            s[0x000..0x004] == Le32(b.tag) && s[0x004..0x008] == Le32(b.version.value) && s[0x008..0x00C] == b.reserved0
  {
    Offsets0();
    FieldAt(b, 0);
    FieldAt(b, 1);
    FieldAt(b, 2);
  }

  /** Where the timing bytes sit: sample clock source, CS hold and setup times, column width and the device mode flag. */
  lemma TimingLayout(b: ConfigurationBlock)
    ensures var s := Serialize(b);
            s[0x00C] == ReadSampleClockSourceCode(b.readSampleClkSrc) && s[0x00D] == b.csHoldTime
            && s[0x00E] == b.csSetupTime && s[0x00F] == ColumnAddressWidthCode(b.columnAddressWidth)
            && s[0x010] == b.deviceModeConfiguration
  {
    Offsets0();
    ByteFieldAt(b, 3);
    ByteFieldAt(b, 4);
    ByteFieldAt(b, 5);
    ByteFieldAt(b, 6);
    ByteFieldAt(b, 7);
  }

  /** Where the device mode fields sit: wait time, sequence and argument. */
  lemma DeviceModeLayout(b: ConfigurationBlock)
    ensures var s := Serialize(b);
            s[0x012..0x014] == Le16(b.waitTimeCfgCommands.factor)
            && s[0x014..0x018] == DeviceModeSequenceBytes(b.deviceModeSequence) && s[0x018..0x01C] == Le32(b.deviceModeArg)
  {
    Offsets1();
    FieldAt(b, 9);
    FieldAt(b, 10);
    FieldAt(b, 11);
  }

  /** Where the flash fields sit: controller options, device type, pad type, clock and the four sizes. */
  lemma FlashLayout(b: ConfigurationBlock)
    ensures var s := Serialize(b);
            s[0x040..0x044] == Le32(b.controllerMiscOptions) && s[0x044] == b.deviceType
            && s[0x045] == FlashPadTypeCode(b.serialFlashPadType) && s[0x046] == b.serialClkFreq
            && s[0x050..0x054] == Le32(b.serialFlashSizes[0]) && s[0x054..0x058] == Le32(b.serialFlashSizes[1])
            && s[0x058..0x05C] == Le32(b.serialFlashSizes[2]) && s[0x05C..0x060] == Le32(b.serialFlashSizes[3])
  {
    Offsets2();
    Offsets3();
    FieldAt(b, 18);
    ByteFieldAt(b, 19);
    ByteFieldAt(b, 20);
    ByteFieldAt(b, 21);
    FieldAt(b, 24);
    FieldAt(b, 25);
    FieldAt(b, 26);
    FieldAt(b, 27);
  }

  /** Where the tail sits: the lookup table, the custom sequence and the last reserved bytes. */
  lemma TailLayout(b: ConfigurationBlock)
    ensures var s := Serialize(b);
            s[0x080..0x180] == LookupTableBytes(b.lookupTable) && s[0x180..0x1B0] == b.lutCustomSeq
            && s[0x1B0..0x1C0] == b.reserved6
  {
    Offsets4();
    FieldAt(b, 37);
    FieldAt(b, 38);
    FieldAt(b, 39);
  }

  /** A four-byte field at a word boundary is the word its bytes spell. */
  lemma FieldWord(b: ConfigurationBlock, j: nat, m: nat)
    requires j < 40 && WIDTHS[j] == 4 && SumTo(WIDTHS, j) == 4 * m
    ensures 4 * m + 4 <= 448
    ensures WordAt(Serialize(b), m) == FromLe32(Fields(b)[j])
  {
    FieldAt(b, j);
  }

  /** `version(v)`: the version word at 0x004 becomes `v`, and nothing else changes. */
  function WithVersion(b: ConfigurationBlock, v: Version): (r: ConfigurationBlock)
    ensures Serialize(r) == Splice(Serialize(b), 0x004, Le32(v.value))
  {
    var r := b.(version := v);
    VersionReplaces(b, v);
    Offsets0();
    FieldsReplace(b, r, 1, 0x004, Le32(v.value));
    r
  }

  lemma VersionReplaces(b: ConfigurationBlock, v: Version)
    ensures ReplacesField(b, b.(version := v), 1, Le32(v.value))
  {
    var r := b.(version := v);
    assert Group0(r) == Group0(b)[1 := Le32(v.value)];
    assert Group1(r) == Group1(b) && Group2(r) == Group2(b) && Group3(r) == Group3(b) && Group4(r) == Group4(b);
  }

  /** `read_sample_clk_src(x)`: byte 0x00C becomes the code of `x`. */
  function WithReadSampleClkSrc(b: ConfigurationBlock, x: ReadSampleClockSource): (r: ConfigurationBlock)
    ensures Serialize(r) == Splice(Serialize(b), 0x00C, [ReadSampleClockSourceCode(x)])
  {
    var r := b.(readSampleClkSrc := x);
    ReadSampleClkSrcReplaces(b, x);
    Offsets0();
    FieldsReplace(b, r, 3, 0x00C, [ReadSampleClockSourceCode(x)]);
    r
  }

  lemma ReadSampleClkSrcReplaces(b: ConfigurationBlock, x: ReadSampleClockSource)
    ensures ReplacesField(b, b.(readSampleClkSrc := x), 3, [ReadSampleClockSourceCode(x)])
  {
    var r := b.(readSampleClkSrc := x);
    assert Group0(r) == Group0(b)[3 := [ReadSampleClockSourceCode(x)]];
    assert Group1(r) == Group1(b) && Group2(r) == Group2(b) && Group3(r) == Group3(b) && Group4(r) == Group4(b);
  }

  /** `cs_hold_time(x)`: byte 0x00D becomes `x`, and nothing else changes. */
  function WithCsHoldTime(b: ConfigurationBlock, x: u8): (r: ConfigurationBlock)
    ensures Serialize(r) == Splice(Serialize(b), 0x00D, [x])
  {
    var r := b.(csHoldTime := x);
    CsHoldTimeReplaces(b, x);
    Offsets0();
    FieldsReplace(b, r, 4, 0x00D, [x]);
    r
  }

  lemma CsHoldTimeReplaces(b: ConfigurationBlock, x: u8)
    ensures ReplacesField(b, b.(csHoldTime := x), 4, [x])
  {
    var r := b.(csHoldTime := x);
    assert Group0(r) == Group0(b)[4 := [x]];
    assert Group1(r) == Group1(b) && Group2(r) == Group2(b) && Group3(r) == Group3(b) && Group4(r) == Group4(b);
  }

  /** `cs_setup_time(x)`: byte 0x00E becomes `x`, and nothing else changes. */
  function WithCsSetupTime(b: ConfigurationBlock, x: u8): (r: ConfigurationBlock)
    ensures Serialize(r) == Splice(Serialize(b), 0x00E, [x])
  {
    var r := b.(csSetupTime := x);
    CsSetupTimeReplaces(b, x);
    Offsets0();
    FieldsReplace(b, r, 5, 0x00E, [x]);
    r
  }

  lemma CsSetupTimeReplaces(b: ConfigurationBlock, x: u8)
    ensures ReplacesField(b, b.(csSetupTime := x), 5, [x])
  {
    var r := b.(csSetupTime := x);
    assert Group0(r) == Group0(b)[5 := [x]];
    assert Group1(r) == Group1(b) && Group2(r) == Group2(b) && Group3(r) == Group3(b) && Group4(r) == Group4(b);
  }

  /** `column_address_width(x)`: byte 0x00F becomes the code of `x`. */
  function WithColumnAddressWidth(b: ConfigurationBlock, x: ColumnAddressWidth): (r: ConfigurationBlock)
    ensures Serialize(r) == Splice(Serialize(b), 0x00F, [ColumnAddressWidthCode(x)])
  {
    var r := b.(columnAddressWidth := x);
    ColumnAddressWidthReplaces(b, x);
    Offsets0();
    FieldsReplace(b, r, 6, 0x00F, [ColumnAddressWidthCode(x)]);
    r
  }

  lemma ColumnAddressWidthReplaces(b: ConfigurationBlock, x: ColumnAddressWidth)
    ensures ReplacesField(b, b.(columnAddressWidth := x), 6, [ColumnAddressWidthCode(x)])
  {
    var r := b.(columnAddressWidth := x);
    assert Group0(r) == Group0(b)[6 := [ColumnAddressWidthCode(x)]];
    assert Group1(r) == Group1(b) && Group2(r) == Group2(b) && Group3(r) == Group3(b) && Group4(r) == Group4(b);
  }

  /** The `deviceModeCfgEnable` byte at 0x010 alone. */
  function WithDeviceModeFlag(b: ConfigurationBlock, x: u8): (r: ConfigurationBlock)
    ensures Serialize(r) == Splice(Serialize(b), 0x010, [x])
  {
    var r := b.(deviceModeConfiguration := x);
    DeviceModeFlagReplaces(b, x);
    Offsets0();
    FieldsReplace(b, r, 7, 0x010, [x]);
    r
  }

  lemma DeviceModeFlagReplaces(b: ConfigurationBlock, x: u8)
    ensures ReplacesField(b, b.(deviceModeConfiguration := x), 7, [x])
  {
    var r := b.(deviceModeConfiguration := x);
    assert Group0(r) == Group0(b)[7 := [x]];
    assert Group1(r) == Group1(b) && Group2(r) == Group2(b) && Group3(r) == Group3(b) && Group4(r) == Group4(b);
  }

  /** `wait_time_cfg_commands(w)`: the half-word at 0x012 becomes the factor of `w`. */
  function WithWaitTimeCfgCommands(b: ConfigurationBlock, w: WaitTimeConfigurationCommands): (r: ConfigurationBlock)
    ensures Serialize(r) == Splice(Serialize(b), 0x012, Le16(w.factor))
  {
    var r := b.(waitTimeCfgCommands := w);
    WaitTimeCfgCommandsReplaces(b, w);
    Offsets1();
    FieldsReplace(b, r, 9, 0x012, Le16(w.factor));
    r
  }

  lemma WaitTimeCfgCommandsReplaces(b: ConfigurationBlock, w: WaitTimeConfigurationCommands)
    ensures ReplacesField(b, b.(waitTimeCfgCommands := w), 9, Le16(w.factor))
  {
    var r := b.(waitTimeCfgCommands := w);
    assert Group1(r) == Group1(b)[1 := Le16(w.factor)];
    assert Group0(r) == Group0(b) && Group2(r) == Group2(b) && Group3(r) == Group3(b) && Group4(r) == Group4(b);
  }

  /** The device mode sequence at 0x014 alone. */
  function WithDeviceModeSequence(b: ConfigurationBlock, d: DeviceModeSequence): (r: ConfigurationBlock)
    ensures Serialize(r) == Splice(Serialize(b), 0x014, DeviceModeSequenceBytes(d))
  {
    var r := b.(deviceModeSequence := d);
    DeviceModeSequenceReplaces(b, d);
    Offsets1();
    FieldsReplace(b, r, 10, 0x014, DeviceModeSequenceBytes(d));
    r
  }

  lemma DeviceModeSequenceReplaces(b: ConfigurationBlock, d: DeviceModeSequence)
    ensures ReplacesField(b, b.(deviceModeSequence := d), 10, DeviceModeSequenceBytes(d))
  {
    var r := b.(deviceModeSequence := d);
    assert Group1(r) == Group1(b)[2 := DeviceModeSequenceBytes(d)];
    assert Group0(r) == Group0(b) && Group2(r) == Group2(b) && Group3(r) == Group3(b) && Group4(r) == Group4(b);
  }

  /** The device mode argument at 0x018 alone. */
  function WithDeviceModeArg(b: ConfigurationBlock, x: u32): (r: ConfigurationBlock)
    ensures Serialize(r) == Splice(Serialize(b), 0x018, Le32(x))
  {
    var r := b.(deviceModeArg := x);
    DeviceModeArgReplaces(b, x);
    Offsets1();
    FieldsReplace(b, r, 11, 0x018, Le32(x));
    r
  }

  lemma DeviceModeArgReplaces(b: ConfigurationBlock, x: u32)
    ensures ReplacesField(b, b.(deviceModeArg := x), 11, Le32(x))
  {
    var r := b.(deviceModeArg := x);
    assert Group1(r) == Group1(b)[3 := Le32(x)];
    assert Group0(r) == Group0(b) && Group2(r) == Group2(b) && Group3(r) == Group3(b) && Group4(r) == Group4(b);
  }

  /** `controller_misc_options(x)`: the word at 0x040 becomes `x`, unchecked. */
  function WithControllerMiscOptions(b: ConfigurationBlock, x: u32): (r: ConfigurationBlock)
    ensures Serialize(r) == Splice(Serialize(b), 0x040, Le32(x))
  {
    var r := b.(controllerMiscOptions := x);
    ControllerMiscOptionsReplaces(b, x);
    Offsets2();
    FieldsReplace(b, r, 18, 0x040, Le32(x));
    r
  }

  lemma ControllerMiscOptionsReplaces(b: ConfigurationBlock, x: u32)
    ensures ReplacesField(b, b.(controllerMiscOptions := x), 18, Le32(x))
  {
    var r := b.(controllerMiscOptions := x);
    assert Group2(r) == Group2(b)[2 := Le32(x)];
    assert Group0(r) == Group0(b) && Group1(r) == Group1(b) && Group3(r) == Group3(b) && Group4(r) == Group4(b);
  }

  /** `serial_flash_pad_type(x)`: byte 0x045 becomes the code of `x`. */
  function WithSerialFlashPadType(b: ConfigurationBlock, x: FlashPadType): (r: ConfigurationBlock)
    ensures Serialize(r) == Splice(Serialize(b), 0x045, [FlashPadTypeCode(x)])
  {
    var r := b.(serialFlashPadType := x);
    SerialFlashPadTypeReplaces(b, x);
    Offsets2();
    FieldsReplace(b, r, 20, 0x045, [FlashPadTypeCode(x)]);
    r
  }

  lemma SerialFlashPadTypeReplaces(b: ConfigurationBlock, x: FlashPadType)
    ensures ReplacesField(b, b.(serialFlashPadType := x), 20, [FlashPadTypeCode(x)])
  {
    var r := b.(serialFlashPadType := x);
    assert Group2(r) == Group2(b)[4 := [FlashPadTypeCode(x)]];
    assert Group0(r) == Group0(b) && Group1(r) == Group1(b) && Group3(r) == Group3(b) && Group4(r) == Group4(b);
  }

  /** The `serialClkFreq` byte at 0x046 alone. */
  function WithSerialClkFreqCode(b: ConfigurationBlock, c: u8): (r: ConfigurationBlock)
    ensures Serialize(r) == Splice(Serialize(b), 0x046, [c])
  {
    var r := b.(serialClkFreq := c);
    SerialClkFreqCodeReplaces(b, c);
    Offsets2();
    FieldsReplace(b, r, 21, 0x046, [c]);
    r
  }

  lemma SerialClkFreqCodeReplaces(b: ConfigurationBlock, c: u8)
    ensures ReplacesField(b, b.(serialClkFreq := c), 21, [c])
  {
    var r := b.(serialClkFreq := c);
    assert Group2(r) == Group2(b)[5 := [c]];
    assert Group0(r) == Group0(b) && Group1(r) == Group1(b) && Group3(r) == Group3(b) && Group4(r) == Group4(b);
  }

  /**
   * `device_mode_configuration(c)`: `Disabled` clears the enable byte at 0x010 and
   * leaves sequence and argument as they were; `Enabled` sets it to 1 and writes
   * the sequence at 0x014 and the argument at 0x018.
   */
  function WithDeviceModeConfiguration(b: ConfigurationBlock, c: DeviceModeConfiguration): (r: ConfigurationBlock)
    ensures c.Disabled? ==> Serialize(r) == Splice(Serialize(b), 0x010, [0])
    ensures c.Enabled? ==>
              Serialize(r) == Splice(Splice(Splice(Serialize(b), 0x010, [1]), 0x014, DeviceModeSequenceBytes(c.deviceModeSeq)), 0x018, Le32(c.deviceModeArg))
  {
    match c
    case Disabled => WithDeviceModeFlag(b, 0)
    case Enabled(arg, dms) => WithDeviceModeArg(WithDeviceModeSequence(WithDeviceModeFlag(b, 1), dms), arg)
  }

  /**
   * `serial_clk_freq(f)` on a block built for `family`: byte 0x046 becomes the
   * code `f` has on that family. An option the family lacks does not exist
   * there, so the caller must name one it has.
   */
  function WithSerialClkFreq(b: ConfigurationBlock, family: Family, f: Frequency): (r: ConfigurationBlock)
    requires Present(family, f)
    ensures Serialize(r) == Splice(Serialize(b), 0x046, [ByteOf(SerialClockCode(family, f).value)])
    ensures Serialize(r)[0x046] as int == SerialClockCode(family, f).value
  {
    WithSerialClkFreqCode(b, ByteOf(SerialClockCode(family, f).value))
  }

  /** `flash_size(region, n)`: the region's size word, at 0x050 plus four times its index, becomes `n`. */
  function WithFlashSize(b: ConfigurationBlock, region: SerialFlashRegion, n: u32): (r: ConfigurationBlock)
    ensures r.serialFlashSizes == b.serialFlashSizes[RegionIndex(region) := n]
    ensures Serialize(r) == Splice(Serialize(b), 0x050 + 4 * RegionIndex(region), Le32(n))
  {
    var k := RegionIndex(region);
    var sizes := b.serialFlashSizes[k := n];
    var r := b.(serialFlashSizes := sizes);
    FlashSizeReplaces(b, k, n);
    Offsets2();
    Offsets3();
    FieldsReplace(b, r, 24 + k, 0x050 + 4 * k, Le32(n));
    r
  }

  /** A new size for region `k` replaces field `24 + k` and no other. */
  lemma FlashSizeReplaces(b: ConfigurationBlock, k: nat, n: u32)
    requires k < 4
    ensures ReplacesField(b, b.(serialFlashSizes := b.serialFlashSizes[k := n]), 24 + k, Le32(n))
  {
    var sizes := b.serialFlashSizes[k := n];
    var r := b.(serialFlashSizes := sizes);
    SizesPartsUpdate(b.serialFlashSizes, k, n);
    UpdateAppend(SizesParts(b.serialFlashSizes), Group3(b)[4..], k, Le32(n));
    assert Group3(r) == Group3(b)[k := Le32(n)];
    assert Group0(r) == Group0(b) && Group1(r) == Group1(b) && Group2(r) == Group2(b) && Group4(r) == Group4(b);
  }

  // ---------------------------------------------------------------------------
  // The default block

  /**
   * `ConfigurationBlock::new(lookup_table)`: the tag, the default version, the
   * recommended chip select times, a single pad at the slowest clock (code 1 on
   * every family), `lut` as the lookup table, and zero everywhere else; the
   * device type stays invalid until a NOR or NAND block sets it.
   */
  function NewBlock(lut: LookupTable): (b: ConfigurationBlock)
    ensures b.lookupTable == lut
  {
    ConfigurationBlock(
      TAG, VERSION_DEFAULT, Zeros(4), InternalLoopback, RECOMMENDED_CS_HOLD_TIME, RECOMMENDED_CS_SETUP_TIME,
      OtherDevices, 0, Zeros(1), WAIT_TIME_DISABLED, NewDeviceModeSequence(0, 0), 0, 0, Zeros(3), Zeros(12), Zeros(4),
      Zeros(12), Zeros(4), 0, 0, Single, 1, 0, Zeros(8), [0, 0, 0, 0], 0, 0, 0, 0, 0, 0, 0, 0, 0, lut, Zeros(48), Zeros(16))
  }

  /** The slowest option has code 1 on every family, so the default clock byte is right wherever the block is used. */
  lemma NewBlockClockIsSlowest(lut: LookupTable, family: Family)
    ensures NewBlock(lut).serialClkFreq as int == SerialClockCode(family, MHz30).value
  {
    SlowestIsOne(family);
  }

  /** Fields `a` up to `c` of a block are zero, so its bytes between their offsets are too. */
  lemma ZeroRange(b: ConfigurationBlock, a: nat, c: nat)
    requires a <= c <= 40
    requires forall k :: a <= k < c ==> Fields(b)[k] == Zeros(WIDTHS[k])
    ensures SumTo(WIDTHS, a) <= SumTo(WIDTHS, c) <= 448
    ensures Serialize(b)[SumTo(WIDTHS, a)..SumTo(WIDTHS, c)] == Zeros(SumTo(WIDTHS, c) - SumTo(WIDTHS, a))
  {
    ConcatRangeZeros(Fields(b), WIDTHS, a, c);
    assert Serialize(b) == Concat(Fields(b));
  }

  lemma NewBlockHead(lut: LookupTable)
    ensures Serialize(NewBlock(lut))[0x000..0x004] == Le32(TAG)
    ensures Serialize(NewBlock(lut))[0x004..0x008] == Le32(0x5601_0000)
    ensures Serialize(NewBlock(lut))[0x008..0x00C] == Zeros(4)
  {
    var b := NewBlock(lut);
    Offsets0();
    FieldAt(b, 0);
    FieldAt(b, 1);
    FieldAt(b, 2);
    TagAndDefaultVersion();
  }

  lemma NewBlockTimings(lut: LookupTable)
    ensures Serialize(NewBlock(lut))[0x00C..0x010] == [0, RECOMMENDED_CS_HOLD_TIME, RECOMMENDED_CS_SETUP_TIME, 0]
  {
    var b := NewBlock(lut);
    var s := Serialize(b);
    Offsets0();
    FieldAt(b, 3);
    FieldAt(b, 4);
    FieldAt(b, 5);
    FieldAt(b, 6);
    assert s[0x00C] == s[0x00C..0x00D][0] == 0;
    assert s[0x00D] == s[0x00D..0x00E][0] == RECOMMENDED_CS_HOLD_TIME;
    assert s[0x00E] == s[0x00E..0x00F][0] == RECOMMENDED_CS_SETUP_TIME;
    assert s[0x00F] == s[0x00F..0x010][0] == 0;
  }

  lemma NewBlockPadAndClock(lut: LookupTable)
    ensures Serialize(NewBlock(lut))[0x045..0x047] == [1, 1]
  {
    var b := NewBlock(lut);
    Offsets2();
    FieldAt(b, 20);
    FieldAt(b, 21);
  }

  lemma NewBlockLookupTable(lut: LookupTable)
    ensures Serialize(NewBlock(lut))[0x080..0x180] == LookupTableBytes(lut)
  {
    Offsets4();
    FieldAt(NewBlock(lut), 37);
  }

  lemma NewBlockZerosDeviceMode(lut: LookupTable)
    ensures Serialize(NewBlock(lut))[0x010..0x01C] == Zeros(0x0C)
  {
    Offsets0();
    Offsets1();
    ZeroedIsZeros();
    assert Le16(0) == Zeros(2);
    assert Le32(0) == Zeros(4);
    ZeroRange(NewBlock(lut), 7, 12);
  }

  lemma NewBlockZerosCommands(lut: LookupTable)
    ensures Serialize(NewBlock(lut))[0x01C..0x045] == Zeros(0x29)
  {
    Offsets1();
    Offsets2();
    assert Le32(0) == Zeros(4);
    ZeroRange(NewBlock(lut), 12, 20);
  }

  lemma NewBlockZerosHigh(lut: LookupTable)
    ensures Serialize(NewBlock(lut))[0x047..0x080] == Zeros(0x39)
    ensures Serialize(NewBlock(lut))[0x180..0x1C0] == Zeros(0x40)
  {
    Offsets2();
    Offsets4();
    assert Le16(0) == Zeros(2);
    assert Le32(0) == Zeros(4);
    ZeroRange(NewBlock(lut), 22, 37);
    ZeroRange(NewBlock(lut), 38, 40);
  }

  /**
   * The default block's 448 bytes, range by range: tag and version, the
   * recommended timings, one pad at the slowest clock, the lookup table at
   * 0x080, and zero bytes everywhere else.
   */
  lemma NewBlockLayout(lut: LookupTable)
    ensures var s := Serialize(NewBlock(lut));
            s[0x000..0x004] == Le32(TAG) && s[0x004..0x008] == Le32(0x5601_0000) && s[0x008..0x00C] == Zeros(4)
            && s[0x00C..0x010] == [0, 3, 3, 0] && s[0x010..0x01C] == Zeros(0x0C) && s[0x01C..0x045] == Zeros(0x29)
            && s[0x045..0x047] == [1, 1]
            && s[0x047..0x080] == Zeros(0x39) && s[0x080..0x180] == LookupTableBytes(lut) && s[0x180..0x1C0] == Zeros(0x40)
  {
    NewBlockHead(lut);
    NewBlockTimings(lut);
    NewBlockPadAndClock(lut);
    NewBlockLookupTable(lut);
    NewBlockZerosDeviceMode(lut);
    NewBlockZerosCommands(lut);
    NewBlockZerosHigh(lut);
  }
}
