/**
 * Field values of the older builder. The sample clock source, column width,
 * pad type, flash region and wait time types are the ones of the newer block
 * (same variants, same codes); what differs is the device-mode sequence (four
 * raw bytes), the fallible wait time constructor, the serial clock numbering,
 * and the four flash sizes held in an array updated in place.
 */
module SerialFlashFields {
  import opened Bytes
  import opened Chip
  import FlexspiFields

  /** The four raw bytes of a device-mode sequence. */
  type Raw4 = s: seq<u8> | |s| == 4 witness [0, 0, 0, 0]

  /** `DeviceModeSequence`: the raw bytes, zero by default. */
  datatype DeviceModeSequence = DeviceModeSequence(raw: Raw4)

  /**
   * `DeviceModeSequence::new(number_of_luts, starting_lut_index)`: the
   * little-endian bytes of `(starting_lut_index << 8) | number_of_luts`.
   */
  function NewDeviceModeSequence(numberOfLuts: u8, startingLutIndex: u8): (d: DeviceModeSequence)
    ensures d.raw == [numberOfLuts, startingLutIndex, 0, 0]
  {
    DeviceModeSequence(Le32(((startingLutIndex as u32) << 8) | (numberOfLuts as u32)))
  }

  /** Both generations lay a device-mode sequence out the same way. */
  lemma DeviceModeSequenceLayoutsAgree(numberOfLuts: u8, startingLutIndex: u8)
    ensures NewDeviceModeSequence(numberOfLuts, startingLutIndex).raw
         == FlexspiFields.DeviceModeSequenceBytes(FlexspiFields.NewDeviceModeSequence(numberOfLuts, startingLutIndex))
  {
  }

  /** `deviceModeCfgEnable`, with the argument and sequence used only when enabled. */
  datatype DeviceModeConfiguration =
    | Disabled
    | Enabled(deviceModeArg: u32, deviceModeSeq: DeviceModeSequence)

  /** `DeviceModeConfiguration::default()`. */
  const DEFAULT_DEVICE_MODE_CONFIGURATION: DeviceModeConfiguration := Disabled

  /**
   * `WaitTimeConfigurationCommands::from_duration`, with the duration given in
   * whole microseconds: no wait time below 100 us, none when the factor does not
   * fit in 16 bits, and otherwise the number of whole 100 us periods.
   */
  function FromDuration(us: nat): (r: Option<FlexspiFields.WaitTimeConfigurationCommands>)
    ensures r.None? <==> us < 100 || us / 100 > 0xFFFF
    ensures r.Some? ==> r.value.factor == us / 100 && r.value.factor != 0
  {
    if us < 100 then None
    else if us / 100 > 0xFFFF then None
    else Some(FlexspiFields.WaitTimeConfigurationCommands(us / 100))
  }

  /** A whole number of 100 us periods comes back unchanged, and never exceeds the duration. */
  lemma FromDurationRoundTrip(factor: u16, us: nat)
    ensures factor != 0 ==> FromDuration(100 * factor) == Some(FlexspiFields.WaitTimeConfigurationCommands(factor))
    ensures FromDuration(us).Some? ==> 100 * FromDuration(us).value.factor <= us < 100 * (FromDuration(us).value.factor + 1)
  {
  }

  /** `WaitTimeConfigurationCommands::disable()` is the zero factor no duration yields. */
  lemma DisableIsNoDuration(us: nat)
    ensures FromDuration(us) != Some(FlexspiFields.WAIT_TIME_DISABLED)
  {
  }

  /**
   * The older `serialClkFreq` codes: 30 MHz up to 133 MHz are 1 up to 8 on every
   * family, so 120 MHz is always an option; 166 MHz is 9 and exists only on the
   * 1061, 1062 and 1064.
   */
  function SerialClockCode(family: Family, f: Frequency): (r: Option<u8>)
    ensures r.Some? <==> f != MHz166 || family in {Imxrt1061, Imxrt1062, Imxrt1064}
  {
    match f
    case MHz30 => Some(1)
    case MHz50 => Some(2)
    case MHz60 => Some(3)
    case MHz75 => Some(4)
    case MHz80 => Some(5)
    case MHz100 => Some(6)
    case MHz120 => Some(7)
    case MHz133 => Some(8)
    case MHz166 => if family in {Imxrt1061, Imxrt1062, Imxrt1064} then Some(9) else None
  }

  /** Each older code is one plus the option's rank in frequency order, so codes are injective and increasing. */
  lemma SerialClockCodeIsRank(family: Family, f: Frequency, g: Frequency)
    requires SerialClockCode(family, f).Some? && SerialClockCode(family, g).Some?
    ensures SerialClockCode(family, f).value as int == FlexspiFields.Rank(f) + 1
    ensures Megahertz(f) < Megahertz(g) <==> SerialClockCode(family, f).value < SerialClockCode(family, g).value
    ensures SerialClockCode(family, f) == SerialClockCode(family, g) <==> f == g
  {
    FlexspiFields.RankIsFrequencyOrder(f, g);
  }

  /** On the 1064, where both generations offer every option, they number them alike. */
  lemma GenerationsAgreeOn1064(f: Frequency)
    ensures SerialClockCode(Imxrt1064, f).value as int == FlexspiFields.SerialClockCode(Imxrt1064, f).value
  {
  }

  /** `SerialFlashSize`: the four region sizes, updated in place through a region index. */
  class SerialFlashSize {
    var sizes: array<u32>

    predicate Valid()
      reads this
    {
      sizes.Length == 4
    }

    /** The four sizes, A1 first. */
    function Contents(): (c: seq<u32>)
      reads this, sizes
      requires Valid()
      ensures |c| == 4
    {
      sizes[..]
    }

    /** `SerialFlashSize::new()`: every region is zero. */
    constructor ()
      ensures Valid() && fresh(sizes)
      ensures Contents() == [0, 0, 0, 0]
    {
      sizes := new u32[4](_ => 0);
    }

    /** `size[region]`. */
    function Index(region: FlexspiFields.SerialFlashRegion): (n: u32)
      reads this, sizes
      requires Valid()
      ensures n == Contents()[FlexspiFields.RegionIndex(region)]
    {
      sizes[FlexspiFields.RegionIndex(region)]
    }

    /** `size[region] = n`: that region's entry becomes `n`, and no other changes. */
    method SetIndex(region: FlexspiFields.SerialFlashRegion, n: u32)
      requires Valid()
      modifies sizes
      ensures Valid()
      ensures Contents() == old(Contents())[FlexspiFields.RegionIndex(region) := n]
      ensures Index(region) == n
      ensures forall r :: r != region ==> Index(r) == old(Index(r))
    {
      sizes[FlexspiFields.RegionIndex(region)] := n;
    }
  }
}
