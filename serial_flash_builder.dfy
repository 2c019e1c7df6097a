/**
 * The older FCB builder. It holds the fields of the common block, a flash size
 * per region, a lookup table and a serial NOR block, all updated in place by
 * setters, and `Build` writes them into a fresh 512-byte FCB. The lookup table
 * goes first, then the fields in block order, then the NOR fields.
 *
 * The bytes `Build` is proved to write are the function `BuildImageAsWritten`.
 * The source writes the wait time field at 0x013, one byte after its offset in
 * the block; `BuildImage` is the same build with the field at 0x012. The layout
 * lemmas below state where each field lands in either image and that every byte
 * no field covers stays zero; the lemmas at the end state where the two differ.
 */
module SerialFlashBuilder {
  import opened Bytes
  import opened Chip
  import opened FlexspiLut
  import FlexspiFields
  import opened SerialFlashFields
  import SerialFlashLookup
  import Nor = SerialFlashNor
  import Fcb

  /** The default `csHoldTime`. */
  const RECOMMENDED_CS_HOLD_TIME: u8 := 0x03
  /** The default `csSetupTime`. */
  const RECOMMENDED_CS_SETUP_TIME: u8 := 0x03

  /** Where the lookup table starts. */
  const LOOKUP_TABLE_OFFSET: nat := 0x080
  /** Where `waitTimeCfgCommands` lies in the block. */
  const WAIT_TIME_OFFSET: nat := 0x012
  /** Where the source writes `waitTimeCfgCommands`. */
  const AS_WRITTEN_WAIT_TIME_OFFSET: nat := 0x013

  /** `DeviceType`: only serial NOR flash, with its NOR block. */
  datatype DeviceType = SerialNOR(nor: Nor.ConfigurationBlock)

  /** The builder's fields at one moment: the flash sizes A1 first, the lookup table slot by slot. */
  datatype Settings = Settings(
    readSampleClkSrc: FlexspiFields.ReadSampleClockSource,
    csHoldTime: u8,
    csSetupTime: u8,
    columnAddressWidth: FlexspiFields.ColumnAddressWidth,
    deviceModeConfiguration: DeviceModeConfiguration,
    waitTimeCfgCommands: FlexspiFields.WaitTimeConfigurationCommands,
    deviceType: DeviceType,
    serialFlashPadType: FlexspiFields.FlashPadType,
    serialClkFreq: Frequency,
    flashSize: seq<u32>,
    lookupTable: seq<Sequence>)

  /**
   * Settings the builder can hold on `family`: four sizes, sixteen sequences,
   * and clock options the family has (the source's frequency enums only have
   * the variants the selected chip supports).
   */
  predicate Buildable(st: Settings, family: Family)
  {
    |st.flashSize| == 4 && |st.lookupTable| == 16
    && SerialClockCode(family, st.serialClkFreq).Some?
    && Nor.IpClockCode(family, st.deviceType.nor.ipCmdSerialClkFreq).Some?
  }

  // ---------------------------------------------------------------------------
  // The bytes a build writes, phase by phase

  /** The sample clock, chip select and column width bytes, the device mode flag, the wait time at `waitOffset`, and, when enabled, the device mode sequence and argument. */
  function WriteTimings(s: seq<u8>, st: Settings, waitOffset: nat): (r: seq<u8>)
    requires |s| == Fcb.FCB_SIZE && 0x010 < waitOffset <= AS_WRITTEN_WAIT_TIME_OFFSET
    ensures |r| == Fcb.FCB_SIZE
  {
    var s1 := Splice(s, 0x00C, [FlexspiFields.ReadSampleClockSourceCode(st.readSampleClkSrc)]);
    var s2 := Splice(s1, 0x00D, [st.csHoldTime]);
    var s3 := Splice(s2, 0x00E, [st.csSetupTime]);
    var s4 := Splice(s3, 0x00F, [FlexspiFields.ColumnAddressWidthCode(st.columnAddressWidth)]);
    var s5 := Splice(s4, 0x010, [if st.deviceModeConfiguration.Enabled? then 1 else 0]);
    var s6 := Splice(s5, waitOffset, Le16(st.waitTimeCfgCommands.factor));
    match st.deviceModeConfiguration
    case Disabled => s6
    case Enabled(arg, dms) => Splice(Splice(s6, 0x014, dms.raw), 0x018, Le32(arg))
  }

  /** The device type, pad type and clock code bytes, then the four flash sizes. */
  function WriteDevice(s: seq<u8>, st: Settings, family: Family): (r: seq<u8>)
    requires |s| == Fcb.FCB_SIZE && Buildable(st, family)
    ensures |r| == Fcb.FCB_SIZE
  {
    var s1 := Splice(s, 0x044, [1]);
    var s2 := Splice(s1, 0x045, [FlexspiFields.FlashPadTypeCode(st.serialFlashPadType)]);
    var s3 := Splice(s2, 0x046, [SerialClockCode(family, st.serialClkFreq).value]);
    var s4 := Splice(s3, 0x050, Le32(st.flashSize[0]));
    var s5 := Splice(s4, 0x054, Le32(st.flashSize[1]));
    var s6 := Splice(s5, 0x058, Le32(st.flashSize[2]));
    Splice(s6, 0x05C, Le32(st.flashSize[3]))
  }

  /** The serial NOR fields: page size, sector size and IP command clock code. */
  function WriteNor(s: seq<u8>, nor: Nor.ConfigurationBlock, family: Family): (r: seq<u8>)
    requires |s| == Fcb.FCB_SIZE && Nor.IpClockCode(family, nor.ipCmdSerialClkFreq).Some?
    ensures |r| == Fcb.FCB_SIZE
  {
    var s1 := Splice(s, 0x1C0, Le32(nor.pageSize));
    var s2 := Splice(s1, 0x1C4, Le32(nor.sectorSize));
    Splice(s2, 0x1C8, [Nor.IpClockCode(family, nor.ipCmdSerialClkFreq).value])
  }

  /** A build with the wait time written at `waitOffset`: lookup table, fields, NOR fields, into a fresh FCB. */
  function BuildImageAt(st: Settings, family: Family, waitOffset: nat): (r: seq<u8>)
    requires Buildable(st, family) && 0x010 < waitOffset <= AS_WRITTEN_WAIT_TIME_OFFSET
    ensures |r| == Fcb.FCB_SIZE
  {
    var lut := Splice(Fcb.NewImage(), LOOKUP_TABLE_OFFSET, SequencesBytes(st.lookupTable));
    WriteNor(WriteDevice(WriteTimings(lut, st, waitOffset), st, family), st.deviceType.nor, family)
  }

  /** The two offsets a build writes the wait time at: its place in the block, and the source's. */
  predicate WaitOffset(w: nat)
  {
    w == WAIT_TIME_OFFSET || w == AS_WRITTEN_WAIT_TIME_OFFSET
  }

  /** The bytes of a build with the wait time at its offset in the block, 0x012. */
  function BuildImage(st: Settings, family: Family): (r: seq<u8>)
    requires Buildable(st, family)
    ensures |r| == Fcb.FCB_SIZE
  {
    BuildImageAt(st, family, WAIT_TIME_OFFSET)
  }

  /** The bytes the source's `build` writes, and `Build` with it: the wait time one byte late, at 0x013. */
  function BuildImageAsWritten(st: Settings, family: Family): (r: seq<u8>)
    requires Buildable(st, family)
    ensures |r| == Fcb.FCB_SIZE
  {
    BuildImageAt(st, family, AS_WRITTEN_WAIT_TIME_OFFSET)
  }

  /** The eight bytes at 0x014: sequence and argument when enabled, zero otherwise. */
  function DeviceModeBytes(c: DeviceModeConfiguration): (r: seq<u8>)
    ensures |r| == 8
  {
    match c
    case Disabled => Zeros(8)
    case Enabled(arg, dms) => dms.raw + Le32(arg)
  }

  // ---------------------------------------------------------------------------
  // What each phase writes, and what it leaves alone

  lemma TimingsFrame(s: seq<u8>, st: Settings, waitOffset: nat)
    requires |s| == Fcb.FCB_SIZE && 0x010 < waitOffset <= AS_WRITTEN_WAIT_TIME_OFFSET
    ensures var r := WriteTimings(s, st, waitOffset);
            forall i :: 0 <= i < Fcb.FCB_SIZE && !(0x00C <= i < 0x01C) ==> r[i] == s[i]
  {
  }

  lemma TimingsBytes(s: seq<u8>, st: Settings, w: nat)
    requires |s| == Fcb.FCB_SIZE && WaitOffset(w)
    ensures var r := WriteTimings(s, st, w);
            && r[0x00C] == FlexspiFields.ReadSampleClockSourceCode(st.readSampleClkSrc)
            && r[0x00D] == st.csHoldTime && r[0x00E] == st.csSetupTime
            && r[0x00F] == FlexspiFields.ColumnAddressWidthCode(st.columnAddressWidth)
            && r[0x010] == (if st.deviceModeConfiguration.Enabled? then 1 else 0)
            && r[0x011] == s[0x011]
    ensures var r := WriteTimings(s, st, w);
            w == WAIT_TIME_OFFSET ==>
              r[0x012] == Le16(st.waitTimeCfgCommands.factor)[0] && r[0x013] == Le16(st.waitTimeCfgCommands.factor)[1]
  {
  }

  lemma TimingsDeviceMode(s: seq<u8>, st: Settings, w: nat)
    requires |s| == Fcb.FCB_SIZE && WaitOffset(w)
    ensures var r := WriteTimings(s, st, w);
            st.deviceModeConfiguration.Enabled? ==> r[0x014..0x01C] == DeviceModeBytes(st.deviceModeConfiguration)
    ensures var r := WriteTimings(s, st, w);
            st.deviceModeConfiguration.Disabled? ==>
              && r[0x014] == (if w == WAIT_TIME_OFFSET then s[0x014] else Le16(st.waitTimeCfgCommands.factor)[1])
              && r[0x015..0x01C] == s[0x015..0x01C]
  {
    var r := WriteTimings(s, st, w);
    if st.deviceModeConfiguration.Enabled? {
      var d := DeviceModeBytes(st.deviceModeConfiguration);
      forall i | 0 <= i < 8 ensures r[0x014..0x01C][i] == d[i] {
      }
    }
  }

  lemma DeviceFrame(s: seq<u8>, st: Settings, family: Family)
    requires |s| == Fcb.FCB_SIZE && Buildable(st, family)
    ensures var r := WriteDevice(s, st, family);
            forall i :: 0 <= i < Fcb.FCB_SIZE && !(0x044 <= i < 0x047) && !(0x050 <= i < 0x060) ==> r[i] == s[i]
  {
  }

  lemma DeviceBytes(s: seq<u8>, st: Settings, family: Family)
    requires |s| == Fcb.FCB_SIZE && Buildable(st, family)
    ensures var r := WriteDevice(s, st, family);
            && r[0x044] == 1
            && r[0x045] == FlexspiFields.FlashPadTypeCode(st.serialFlashPadType)
            && r[0x046] == SerialClockCode(family, st.serialClkFreq).value
            && r[0x050..0x060] == Le32(st.flashSize[0]) + Le32(st.flashSize[1]) + Le32(st.flashSize[2]) + Le32(st.flashSize[3])
  {
    var r := WriteDevice(s, st, family);
    var d := Le32(st.flashSize[0]) + Le32(st.flashSize[1]) + Le32(st.flashSize[2]) + Le32(st.flashSize[3]);
    forall i | 0 <= i < 16 ensures r[0x050..0x060][i] == d[i] {
    }
  }

  lemma NorFrame(s: seq<u8>, nor: Nor.ConfigurationBlock, family: Family)
    requires |s| == Fcb.FCB_SIZE && Nor.IpClockCode(family, nor.ipCmdSerialClkFreq).Some?
    ensures var r := WriteNor(s, nor, family);
            forall i :: 0 <= i < Fcb.FCB_SIZE && !(0x1C0 <= i < 0x1C9) ==> r[i] == s[i]
  {
  }

  lemma NorBytes(s: seq<u8>, nor: Nor.ConfigurationBlock, family: Family)
    requires |s| == Fcb.FCB_SIZE && Nor.IpClockCode(family, nor.ipCmdSerialClkFreq).Some?
    ensures var r := WriteNor(s, nor, family);
            r[0x1C0..0x1C9] == Le32(nor.pageSize) + Le32(nor.sectorSize) + [Nor.IpClockCode(family, nor.ipCmdSerialClkFreq).value]
  {
    var r := WriteNor(s, nor, family);
    var d := Le32(nor.pageSize) + Le32(nor.sectorSize) + [Nor.IpClockCode(family, nor.ipCmdSerialClkFreq).value];
    forall i | 0 <= i < 9 ensures r[0x1C0..0x1C9][i] == d[i] {
    }
  }

  /** Every byte of a build is the fresh FCB's, the lookup table's, or one a phase wrote. */
  lemma BuildStages(st: Settings, family: Family, waitOffset: nat, i: nat)
    requires Buildable(st, family) && 0x010 < waitOffset <= AS_WRITTEN_WAIT_TIME_OFFSET && i < Fcb.FCB_SIZE
    ensures var lut := Splice(Fcb.NewImage(), LOOKUP_TABLE_OFFSET, SequencesBytes(st.lookupTable));
            var t := WriteTimings(lut, st, waitOffset);
            var d := WriteDevice(t, st, family);
            && (!(0x1C0 <= i < 0x1C9) ==> BuildImageAt(st, family, waitOffset)[i] == d[i])
            && (!(0x044 <= i < 0x047) && !(0x050 <= i < 0x060) ==> d[i] == t[i])
            && (!(0x00C <= i < 0x01C) ==> t[i] == lut[i])
            && (!(LOOKUP_TABLE_OFFSET <= i < 0x180) ==> lut[i] == Fcb.NewImage()[i])
  {
    var lut := Splice(Fcb.NewImage(), LOOKUP_TABLE_OFFSET, SequencesBytes(st.lookupTable));
    var t := WriteTimings(lut, st, waitOffset);
    var d := WriteDevice(t, st, family);
    TimingsFrame(lut, st, waitOffset);
    DeviceFrame(t, st, family);
    NorFrame(d, st.deviceType.nor, family);
  }

  /** Bytes no field covers keep the fresh FCB's zero. */
  lemma BuildZeros(st: Settings, family: Family, waitOffset: nat, a: nat, b: nat)
    requires Buildable(st, family) && 0x010 < waitOffset <= AS_WRITTEN_WAIT_TIME_OFFSET
    requires (8 <= a <= b <= 0x00C) || (0x01C <= a <= b <= 0x044) || (0x047 <= a <= b <= 0x050)
          || (0x060 <= a <= b <= LOOKUP_TABLE_OFFSET) || (0x180 <= a <= b <= 0x1C0) || (0x1C9 <= a <= b <= Fcb.FCB_SIZE)
    ensures BuildImageAt(st, family, waitOffset)[a..b] == Zeros(b - a)
  {
    var s := BuildImageAt(st, family, waitOffset);
    forall i | a <= i < b ensures s[i] == 0 {
      BuildStages(st, family, waitOffset, i);
    }
  }

  // ---------------------------------------------------------------------------
  // The layout of a build

  /** The header, a reserved word, then the sample clock, chip select and column width bytes and the device mode flag. */
  lemma BuildHeaderLayout(st: Settings, family: Family, w: nat)
    requires Buildable(st, family) && WaitOffset(w)
    ensures var s := BuildImageAt(st, family, w);
            && s[0x000..0x008] == Fcb.HEADER && s[0x008..0x00C] == Zeros(4)
            && s[0x00C] == FlexspiFields.ReadSampleClockSourceCode(st.readSampleClkSrc)
            && s[0x00D] == st.csHoldTime && s[0x00E] == st.csSetupTime
            && s[0x00F] == FlexspiFields.ColumnAddressWidthCode(st.columnAddressWidth)
            && s[0x010] == (if st.deviceModeConfiguration.Enabled? then 1 else 0) && s[0x011] == 0
  {
    var s := BuildImageAt(st, family, w);
    var lut := Splice(Fcb.NewImage(), LOOKUP_TABLE_OFFSET, SequencesBytes(st.lookupTable));
    TimingsBytes(lut, st, w);
    BuildZeros(st, family, w, 0x008, 0x00C);
    forall i | 0 <= i < 0x012 ensures s[i] == WriteTimings(lut, st, w)[i] && (i < 0x00C ==> s[i] == Fcb.NewImage()[i]) {
      BuildStages(st, family, w, i);
    }
    SlicesAgree(s, Fcb.NewImage(), 0x000, 0x008);
  }

  /** The wait time at 0x012, its low byte first. */
  lemma BuildWaitLayout(st: Settings, family: Family)
    requires Buildable(st, family)
    ensures BuildImage(st, family)[0x012..0x014] == Le16(st.waitTimeCfgCommands.factor)
  {
    var s := BuildImage(st, family);
    var lut := Splice(Fcb.NewImage(), LOOKUP_TABLE_OFFSET, SequencesBytes(st.lookupTable));
    TimingsBytes(lut, st, WAIT_TIME_OFFSET);
    BuildStages(st, family, WAIT_TIME_OFFSET, 0x012);
    BuildStages(st, family, WAIT_TIME_OFFSET, 0x013);
    Slice2(s, 0x012);
  }

  /**
   * The device mode sequence and argument as the source writes them: when
   * enabled, the sequence at 0x014 and the argument at 0x018; when disabled,
   * byte 0x014 holds the wait time's high byte and 0x015 up to 0x01B stay zero.
   */
  lemma BuildDeviceModeLayout(st: Settings, family: Family)
    requires Buildable(st, family)
    ensures var s := BuildImageAsWritten(st, family);
            st.deviceModeConfiguration.Enabled? ==> s[0x014..0x01C] == DeviceModeBytes(st.deviceModeConfiguration)
    ensures var s := BuildImageAsWritten(st, family);
            st.deviceModeConfiguration.Disabled? ==>
              s[0x014] == Le16(st.waitTimeCfgCommands.factor)[1] && s[0x015..0x01C] == Zeros(7)
  {
    var s := BuildImageAsWritten(st, family);
    var lut := Splice(Fcb.NewImage(), LOOKUP_TABLE_OFFSET, SequencesBytes(st.lookupTable));
    var t := WriteTimings(lut, st, AS_WRITTEN_WAIT_TIME_OFFSET);
    TimingsDeviceMode(lut, st, AS_WRITTEN_WAIT_TIME_OFFSET);
    forall i | 0x014 <= i < 0x01C ensures s[i] == t[i] {
      BuildStages(st, family, AS_WRITTEN_WAIT_TIME_OFFSET, i);
    }
    if st.deviceModeConfiguration.Disabled? {
      forall i | 0x015 <= i < 0x01C ensures lut[i] == 0 {
      }
      assert lut[0x015..0x01C] == Zeros(7);
      SlicesAgree(s, t, 0x015, 0x01C);
    } else {
      SlicesAgree(s, t, 0x014, 0x01C);
    }
  }

  /** With the wait time at its place in the block, the device mode bytes: sequence and argument, zero while disabled. */
  lemma CorrectedDeviceModeLayout(st: Settings, family: Family)
    requires Buildable(st, family)
    ensures BuildImage(st, family)[0x014..0x01C] == DeviceModeBytes(st.deviceModeConfiguration)
  {
    var s := BuildImage(st, family);
    var lut := Splice(Fcb.NewImage(), LOOKUP_TABLE_OFFSET, SequencesBytes(st.lookupTable));
    var t := WriteTimings(lut, st, WAIT_TIME_OFFSET);
    TimingsDeviceMode(lut, st, WAIT_TIME_OFFSET);
    forall i | 0x014 <= i < 0x01C ensures s[i] == t[i] {
      BuildStages(st, family, WAIT_TIME_OFFSET, i);
    }
    if st.deviceModeConfiguration.Disabled? {
      forall i | 0x014 <= i < 0x01C ensures lut[i] == 0 {
      }
      forall i | 0x014 <= i < 0x01C ensures t[i] == 0 {
        if 0x015 <= i {
          assert t[i] == t[0x015..0x01C][i - 0x015] == lut[0x015..0x01C][i - 0x015];
        }
      }
      assert t[0x014..0x01C] == Zeros(8);
    }
    SlicesAgree(s, t, 0x014, 0x01C);
  }

  /** The unused command words, the device, pad and clock bytes, and the four flash sizes. */
  lemma BuildDeviceLayout(st: Settings, family: Family, w: nat)
    requires Buildable(st, family) && WaitOffset(w)
    ensures var s := BuildImageAt(st, family, w);
            && s[0x01C..0x044] == Zeros(0x28)
            && s[0x044] == 1
            && s[0x045] == FlexspiFields.FlashPadTypeCode(st.serialFlashPadType)
            && s[0x046] == SerialClockCode(family, st.serialClkFreq).value
            && s[0x047..0x050] == Zeros(9)
            && s[0x050..0x060] == Le32(st.flashSize[0]) + Le32(st.flashSize[1]) + Le32(st.flashSize[2]) + Le32(st.flashSize[3])
            && s[0x060..0x080] == Zeros(0x20)
  {
    var s := BuildImageAt(st, family, w);
    var lut := Splice(Fcb.NewImage(), LOOKUP_TABLE_OFFSET, SequencesBytes(st.lookupTable));
    var t := WriteTimings(lut, st, w);
    var d := WriteDevice(t, st, family);
    DeviceBytes(t, st, family);
    BuildZeros(st, family, w, 0x01C, 0x044);
    BuildZeros(st, family, w, 0x047, 0x050);
    BuildZeros(st, family, w, 0x060, 0x080);
    forall i | 0x044 <= i < 0x060 ensures s[i] == d[i] {
      BuildStages(st, family, w, i);
    }
    SlicesAgree(s, d, 0x050, 0x060);
  }

  /** The lookup table, slot by slot from 0x080. */
  lemma BuildLutLayout(st: Settings, family: Family, w: nat)
    requires Buildable(st, family) && WaitOffset(w)
    ensures BuildImageAt(st, family, w)[LOOKUP_TABLE_OFFSET..0x180] == SequencesBytes(st.lookupTable)
  {
    var s := BuildImageAt(st, family, w);
    var l := SequencesBytes(st.lookupTable);
    forall i | 0 <= i < 0x100 ensures s[LOOKUP_TABLE_OFFSET..0x180][i] == l[i] {
      BuildStages(st, family, w, LOOKUP_TABLE_OFFSET + i);
    }
  }

  /** Instruction `k` of slot `i` lands at `0x080 + 16 * i + 2 * k`, operand first. */
  lemma BuildInstrAt(st: Settings, family: Family, w: nat, i: nat, k: nat)
    requires Buildable(st, family) && WaitOffset(w) && i < 16 && k < 8
    ensures LOOKUP_TABLE_OFFSET + 16 * i + 2 * k + 1 < 0x180
    ensures BuildImageAt(st, family, w)[LOOKUP_TABLE_OFFSET + 16 * i + 2 * k] == st.lookupTable[i].instrs[k].raw[0]
    ensures BuildImageAt(st, family, w)[LOOKUP_TABLE_OFFSET + 16 * i + 2 * k + 1] == st.lookupTable[i].instrs[k].raw[1]
  {
    BuildLutLayout(st, family, w);
    TableInstrAt(BuildImageAt(st, family, w), st.lookupTable, i, k);
  }

  /** Where an encoded table lies at 0x080, instruction `k` of slot `i` is at `0x080 + 16 * i + 2 * k`. */
  lemma TableInstrAt(s: seq<u8>, t: seq<Sequence>, i: nat, k: nat)
    requires |t| == 16 && 0x180 <= |s| && s[LOOKUP_TABLE_OFFSET..0x180] == SequencesBytes(t) && i < 16 && k < 8
    ensures s[LOOKUP_TABLE_OFFSET + 16 * i + 2 * k] == t[i].instrs[k].raw[0]
    ensures s[LOOKUP_TABLE_OFFSET + 16 * i + 2 * k + 1] == t[i].instrs[k].raw[1]
  {
    var l := SequencesBytes(t);
    var q := SequenceBytes(t[i]);
    SequencesBytesAt(t, i);
    InstrsBytesAt(t[i].instrs, k);
    assert l[16 * i + 2 * k] == q[2 * k] && l[16 * i + 2 * k + 1] == q[2 * k + 1];
    assert s[LOOKUP_TABLE_OFFSET + 16 * i + 2 * k] == l[16 * i + 2 * k];
    assert s[LOOKUP_TABLE_OFFSET + 16 * i + 2 * k + 1] == l[16 * i + 2 * k + 1];
  }

  /** The reserved bytes after the table, the serial NOR fields at 0x1C0, and zeros to the end. */
  lemma BuildNorLayout(st: Settings, family: Family, w: nat)
    requires Buildable(st, family) && WaitOffset(w)
    ensures var s := BuildImageAt(st, family, w);
            var nor := st.deviceType.nor;
            && s[0x180..0x1C0] == Zeros(0x40)
            && s[0x1C0..0x1C9] == Le32(nor.pageSize) + Le32(nor.sectorSize) + [Nor.IpClockCode(family, nor.ipCmdSerialClkFreq).value]
            && s[0x1C9..0x200] == Zeros(0x37)
  {
    var lut := Splice(Fcb.NewImage(), LOOKUP_TABLE_OFFSET, SequencesBytes(st.lookupTable));
    var t := WriteTimings(lut, st, w);
    var d := WriteDevice(t, st, family);
    NorBytes(d, st.deviceType.nor, family);
    BuildZeros(st, family, w, 0x180, 0x1C0);
    BuildZeros(st, family, w, 0x1C9, 0x200);
  }

  // ---------------------------------------------------------------------------
  // The builder

  class FCBBuilder {
    const family: Family
    var readSampleClkSrc: FlexspiFields.ReadSampleClockSource
    var csHoldTime: u8
    var csSetupTime: u8
    var columnAddressWidth: FlexspiFields.ColumnAddressWidth
    var deviceModeConfiguration: DeviceModeConfiguration
    var waitTimeCfgCommands: FlexspiFields.WaitTimeConfigurationCommands
    var deviceType: DeviceType
    var serialFlashPadType: FlexspiFields.FlashPadType
    var serialClkFreq: Frequency
    const flashSize: SerialFlashSize
    const lookupTable: SerialFlashLookup.LookupTable

    predicate Valid()
      reads this, flashSize, lookupTable
    {
      flashSize.Valid() && lookupTable.Valid()
      && SerialClockCode(family, serialClkFreq).Some?
      && Nor.IpClockCode(family, deviceType.nor.ipCmdSerialClkFreq).Some?
    }

    /** The fields now. */
    function State(): (st: Settings)
      reads this, flashSize, flashSize.sizes, lookupTable, lookupTable.slots
      requires Valid()
      ensures Buildable(st, family)
    {
      Settings(readSampleClkSrc, csHoldTime, csSetupTime, columnAddressWidth, deviceModeConfiguration,
               waitTimeCfgCommands, deviceType, serialFlashPadType, serialClkFreq,
               flashSize.Contents(), lookupTable.Contents())
    }

    /**
     * `FCBBuilder::new(device_type, lookup_table)`: internal loopback, the
     * recommended chip select times, other devices' column width, device mode
     * disabled, no wait, single pad, 30 MHz and every flash size zero.
     */
    constructor (family: Family, deviceType: DeviceType, lookupTable: SerialFlashLookup.LookupTable)
      requires lookupTable.Valid() && Nor.IpClockCode(family, deviceType.nor.ipCmdSerialClkFreq).Some?
      ensures Valid() && fresh(flashSize) && fresh(flashSize.sizes)
      ensures this.family == family && this.lookupTable == lookupTable
      ensures State() == Settings(FlexspiFields.InternalLoopback, RECOMMENDED_CS_HOLD_TIME, RECOMMENDED_CS_SETUP_TIME,
                                  FlexspiFields.OtherDevices, Disabled, FlexspiFields.WAIT_TIME_DISABLED, deviceType,
                                  FlexspiFields.Single, MHz30, [0, 0, 0, 0], lookupTable.Contents())
    {
      this.family := family;
      readSampleClkSrc := FlexspiFields.InternalLoopback;
      csHoldTime := RECOMMENDED_CS_HOLD_TIME;
      csSetupTime := RECOMMENDED_CS_SETUP_TIME;
      columnAddressWidth := FlexspiFields.OtherDevices;
      deviceModeConfiguration := Disabled;
      waitTimeCfgCommands := FlexspiFields.WAIT_TIME_DISABLED;
      this.deviceType := deviceType;
      serialFlashPadType := FlexspiFields.Single;
      serialClkFreq := MHz30;
      flashSize := new SerialFlashSize();
      this.lookupTable := lookupTable;
    }

    /** `read_sample_clk_src`. */
    method SetReadSampleClkSrc(x: FlexspiFields.ReadSampleClockSource)
      requires Valid()
      modifies this
      ensures Valid() && State() == old(State()).(readSampleClkSrc := x)
    {
      readSampleClkSrc := x;
    }

    /** `cs_hold_time`. */
    method SetCsHoldTime(x: u8)
      requires Valid()
      modifies this
      ensures Valid() && State() == old(State()).(csHoldTime := x)
    {
      csHoldTime := x;
    }

    /** `cs_setup_time`. */
    method SetCsSetupTime(x: u8)
      requires Valid()
      modifies this
      ensures Valid() && State() == old(State()).(csSetupTime := x)
    {
      csSetupTime := x;
    }

    /** `column_address_width`. */
    method SetColumnAddressWidth(x: FlexspiFields.ColumnAddressWidth)
      requires Valid()
      modifies this
      ensures Valid() && State() == old(State()).(columnAddressWidth := x)
    {
      columnAddressWidth := x;
    }

    /** `device_mode_configuration`. */
    method SetDeviceModeConfiguration(x: DeviceModeConfiguration)
      requires Valid()
      modifies this
      ensures Valid() && State() == old(State()).(deviceModeConfiguration := x)
    {
      deviceModeConfiguration := x;
    }

    /** `wait_time_cfg_commands`. */
    method SetWaitTimeCfgCommands(x: FlexspiFields.WaitTimeConfigurationCommands)
      requires Valid()
      modifies this
      ensures Valid() && State() == old(State()).(waitTimeCfgCommands := x)
    {
      waitTimeCfgCommands := x;
    }

    /** `serial_flash_pad_type`. */
    method SetSerialFlashPadType(x: FlexspiFields.FlashPadType)
      requires Valid()
      modifies this
      ensures Valid() && State() == old(State()).(serialFlashPadType := x)
    {
      serialFlashPadType := x;
    }

    /** `serial_clk_freq`, for a frequency the family has. */
    method SetSerialClkFreq(x: Frequency)
      requires Valid() && SerialClockCode(family, x).Some?
      modifies this
      ensures Valid() && State() == old(State()).(serialClkFreq := x)
    {
      serialClkFreq := x;
    }

    /** `flash_size(region, size)`: that region's size, and nothing else, changes. */
    method SetFlashSize(region: FlexspiFields.SerialFlashRegion, size: u32)
      requires Valid()
      modifies flashSize.sizes
      ensures Valid()
      ensures State() == old(State()).(flashSize := old(State()).flashSize[FlexspiFields.RegionIndex(region) := size])
    {
      flashSize.SetIndex(region, size);
    }

    /** `serialze_lookup`: every instruction's two raw bytes, slot after slot, from 0x080. */
    method SerializeLookup(fcb: Fcb.Fcb)
      requires Valid() && fcb.Valid()
      modifies fcb.bytes
      ensures fcb.bytes[..] == Splice(old(fcb.bytes[..]), LOOKUP_TABLE_OFFSET, SequencesBytes(lookupTable.Contents()))
    {
      var entries := lookupTable.Iter();
      ghost var table := lookupTable.Contents();
      ghost var start := fcb.bytes[..];
      var offset := 0;
      for seqIdx := 0 to 16
        invariant offset == 16 * seqIdx
        invariant fcb.bytes[..] == Splice(start, LOOKUP_TABLE_OFFSET, SequencesBytes(table[..seqIdx]))
      {
        ghost var done := SequencesBytes(table[..seqIdx]);
        SpliceAbutting(start, LOOKUP_TABLE_OFFSET, done, SequenceBytes(table[seqIdx]));
        offset := SerializeSequence(fcb, offset, entries[seqIdx].0);
        SequencesBytesSnoc(table, seqIdx);
      }
      assert table[..16] == table;
    }

    /** `build()`: a fresh FCB holding the source's image of the fields; the builder is unchanged. */
    method Build() returns (fcb: Fcb.Fcb)
      requires Valid()
      ensures fresh(fcb) && fresh(fcb.bytes) && fcb.Valid()
      ensures fcb.bytes[..] == BuildImageAsWritten(State(), family)
    {
      ghost var st := State();
      fcb := new Fcb.Fcb();
      SerializeLookup(fcb);
      ghost var lut := fcb.bytes[..];
      WriteTimingFields(fcb);
      ghost var t := fcb.bytes[..];
      WriteDeviceFields(fcb);
      ghost var d := fcb.bytes[..];
      WriteNorFields(fcb);
      assert State() == st;
    }

    /** The writes of `build` from 0x00C to 0x01C, in the source's order, the wait time at 0x013. */
    method WriteTimingFields(fcb: Fcb.Fcb)
      requires Valid() && fcb.Valid()
      modifies fcb.bytes
      ensures fcb.bytes[..] == WriteTimings(old(fcb.bytes[..]), old(State()), AS_WRITTEN_WAIT_TIME_OFFSET)
    {
      var dmc := deviceModeConfiguration;
      fcb.FieldComment(0x00C, [FlexspiFields.ReadSampleClockSourceCode(readSampleClkSrc)]);
      fcb.FieldComment(0x00D, [csHoldTime]);
      fcb.FieldComment(0x00E, [csSetupTime]);
      fcb.FieldComment(0x00F, [FlexspiFields.ColumnAddressWidthCode(columnAddressWidth)]);
      fcb.FieldComment(0x010, match dmc case Disabled => [0] case Enabled(_, _) => [1]);
      fcb.FieldComment(AS_WRITTEN_WAIT_TIME_OFFSET, Le16(waitTimeCfgCommands.factor));
      if dmc.Enabled? {
        fcb.FieldComment(0x014, dmc.deviceModeSeq.raw);
        fcb.FieldComment(0x018, Le32(dmc.deviceModeArg));
      }
    }

    /** The writes of `build` from 0x044 to 0x060: device type, pad type, clock code, and the four flash sizes. */
    method WriteDeviceFields(fcb: Fcb.Fcb)
      requires Valid() && fcb.Valid()
      modifies fcb.bytes
      ensures fcb.bytes[..] == WriteDevice(old(fcb.bytes[..]), old(State()), family)
    {
      ghost var st := State();
      ghost var s0 := fcb.bytes[..];
      var a1 := flashSize.Index(FlexspiFields.A1);
      var a2 := flashSize.Index(FlexspiFields.A2);
      var b1 := flashSize.Index(FlexspiFields.B1);
      var b2 := flashSize.Index(FlexspiFields.B2);
      assert [a1, a2, b1, b2] == st.flashSize;
      fcb.FieldComment(0x044, match deviceType case SerialNOR(_) => [1]);
      ghost var s1 := fcb.bytes[..];
      fcb.FieldComment(0x045, [FlexspiFields.FlashPadTypeCode(serialFlashPadType)]);
      ghost var s2 := fcb.bytes[..];
      fcb.FieldComment(0x046, [SerialClockCode(family, serialClkFreq).value]);
      ghost var s3 := fcb.bytes[..];
      assert s3 == Splice(Splice(Splice(s0, 0x044, [1]), 0x045, [FlexspiFields.FlashPadTypeCode(st.serialFlashPadType)]),
                          0x046, [SerialClockCode(family, st.serialClkFreq).value]);
      fcb.FieldComment(0x050, Le32(a1));
      fcb.FieldComment(0x054, Le32(a2));
      fcb.FieldComment(0x058, Le32(b1));
      fcb.FieldComment(0x05C, Le32(b2));
      assert fcb.bytes[..] == Splice(Splice(Splice(Splice(s3, 0x050, Le32(st.flashSize[0])), 0x054, Le32(st.flashSize[1])),
                                            0x058, Le32(st.flashSize[2])), 0x05C, Le32(st.flashSize[3]));
    }

    /** The writes of `build` for the serial NOR block. */
    method WriteNorFields(fcb: Fcb.Fcb)
      requires Valid() && fcb.Valid()
      modifies fcb.bytes
      ensures fcb.bytes[..] == WriteNor(old(fcb.bytes[..]), deviceType.nor, family)
    {
      match deviceType {
        case SerialNOR(nor) =>
          fcb.FieldComment(0x1C0, Le32(nor.pageSize));
          fcb.FieldComment(0x1C4, Le32(nor.sectorSize));
          fcb.FieldComment(0x1C8, [Nor.IpClockCode(family, nor.ipCmdSerialClkFreq).value]);
      }
    }
  }

  /** The inner loop of `serialze_lookup`: one sequence's instructions, two bytes each, from `offset` in the table. */
  method SerializeSequence(fcb: Fcb.Fcb, offset: nat, s: Sequence) returns (next: nat)
    requires fcb.Valid() && LOOKUP_TABLE_OFFSET + offset + SEQUENCE_SIZE <= Fcb.FCB_SIZE
    modifies fcb.bytes
    ensures next == offset + SEQUENCE_SIZE
    ensures fcb.bytes[..] == Splice(old(fcb.bytes[..]), LOOKUP_TABLE_OFFSET + offset, SequenceBytes(s))
  {
    ghost var start := fcb.bytes[..];
    next := offset;
    for k := 0 to 8
      invariant next == offset + 2 * k
      invariant fcb.bytes[..] == Splice(start, LOOKUP_TABLE_OFFSET + offset, InstrsBytes(s.instrs[..k]))
    {
      var raw := s.instrs[k].raw;
      SpliceAbutting(start, LOOKUP_TABLE_OFFSET + offset, InstrsBytes(s.instrs[..k]), raw);
      fcb.FieldComment(LOOKUP_TABLE_OFFSET + next, raw);
      InstrsBytesSnoc(s.instrs, k);
      next := next + |raw|;
    }
    assert s.instrs[..8] == s.instrs;
  }

  // ---------------------------------------------------------------------------
  // The wait time as the source writes it

  /**
   * Written at 0x013, the wait time's low byte lands where its high byte
   * belongs, byte 0x012 stays zero, and the high byte spills into 0x014, the
   * first byte of the device mode sequence, unless device mode overwrites it.
   */
  lemma AsWrittenWaitTime(st: Settings, family: Family)
    requires Buildable(st, family)
    ensures var s := BuildImageAsWritten(st, family);
            var w := Le16(st.waitTimeCfgCommands.factor);
            && s[0x012] == 0 && s[0x013] == w[0]
            && (st.deviceModeConfiguration.Disabled? ==> s[0x014] == w[1])
  {
    var lut := Splice(Fcb.NewImage(), LOOKUP_TABLE_OFFSET, SequencesBytes(st.lookupTable));
    BuildStages(st, family, AS_WRITTEN_WAIT_TIME_OFFSET, 0x012);
    BuildStages(st, family, AS_WRITTEN_WAIT_TIME_OFFSET, 0x013);
    BuildStages(st, family, AS_WRITTEN_WAIT_TIME_OFFSET, 0x014);
  }

  /**
   * Any settings with a wait time of 0x0102 periods of 100 us and device mode
   * disabled: the source's image reads a wait time of 0x0200 periods at 0x012
   * and a device mode sequence of 1, where `BuildWaitLayout` and
   * `CorrectedDeviceModeLayout` give 0x0102 and zeros.
   */
  lemma WaitTimeMisplaced(st: Settings, family: Family)
    requires Buildable(st, family)
    requires st.waitTimeCfgCommands.factor == 0x0102 && st.deviceModeConfiguration.Disabled?
    ensures BuildImageAsWritten(st, family)[0x012..0x015] == [0x00, 0x02, 0x01]
  {
    var s := BuildImageAsWritten(st, family);
    AsWrittenWaitTime(st, family);
    Le16Of0102();
    Slice3(s, 0x012, 0x00, 0x02, 0x01);
  }

  /** The bytes of a wait time of 0x0102. */
  lemma Le16Of0102()
    ensures Le16(0x0102) == [0x02, 0x01]
  {
  }

  /** With no wait time, writing it one byte late changes nothing when the bytes it covers start out zero. */
  lemma TimingsNoWait(s: seq<u8>, st: Settings)
    requires |s| == Fcb.FCB_SIZE && st.waitTimeCfgCommands.factor == 0
    requires s[0x012] == 0 && s[0x014] == 0
    ensures WriteTimings(s, st, WAIT_TIME_OFFSET) == WriteTimings(s, st, AS_WRITTEN_WAIT_TIME_OFFSET)
  {
    var a := WriteTimings(s, st, WAIT_TIME_OFFSET);
    var b := WriteTimings(s, st, AS_WRITTEN_WAIT_TIME_OFFSET);
    assert Le16(0) == [0, 0];
    forall i | 0 <= i < Fcb.FCB_SIZE ensures a[i] == b[i] {
    }
  }

  /** With no wait time the source's image and the corrected one agree byte for byte. */
  lemma NoWaitAgrees(st: Settings, family: Family)
    requires Buildable(st, family) && st.waitTimeCfgCommands.factor == 0
    ensures BuildImageAsWritten(st, family) == BuildImage(st, family)
  {
    var lut := Splice(Fcb.NewImage(), LOOKUP_TABLE_OFFSET, SequencesBytes(st.lookupTable));
    TimingsNoWait(lut, st);
  }
}
