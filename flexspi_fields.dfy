/**
 * Field values of the newer FlexSPI configuration block: enum codes, the
 * device-mode sequence, the configuration-command wait time, and the serial
 * clock codes, whose numbering depends on the chip family.
 */
module FlexspiFields {
  import opened Bytes
  import opened Chip

  // ---------------------------------------------------------------------------
  // Enum codes. Each code function has a decoding partner that undoes it.

  /** `readSampleClkSrc`. */
  datatype ReadSampleClockSource = InternalLoopback | LoopbackFromDQSPad | FlashProvidedDQS

  function ReadSampleClockSourceCode(r: ReadSampleClockSource): (c: u8)
    ensures ReadSampleClockSourceOfCode(c) == Some(r)
  {
    match r
    case InternalLoopback => 0x00
    case LoopbackFromDQSPad => 0x01
    case FlashProvidedDQS => 0x03
  }

  function ReadSampleClockSourceOfCode(c: u8): Option<ReadSampleClockSource>
  {
    if c == 0x00 then Some(InternalLoopback)
    else if c == 0x01 then Some(LoopbackFromDQSPad)
    else if c == 0x03 then Some(FlashProvidedDQS)
    else None
  }

  /** Exactly the codes 0, 1 and 3 name a sample clock source. */
  lemma ReadSampleClockSourceCodes(c: u8)
    ensures ReadSampleClockSourceOfCode(c).Some? <==> c == 0 || c == 1 || c == 3
    ensures ReadSampleClockSourceOfCode(c).Some? ==> ReadSampleClockSourceCode(ReadSampleClockSourceOfCode(c).value) == c
  {
  }

  /** `columnAdressWidth`. */
  datatype ColumnAddressWidth = OtherDevices | Hyperflash

  function ColumnAddressWidthCode(w: ColumnAddressWidth): (c: u8)
    ensures ColumnAddressWidthOfCode(c) == Some(w)
  {
    match w
    case OtherDevices => 0
    case Hyperflash => 3
  }

  function ColumnAddressWidthOfCode(c: u8): Option<ColumnAddressWidth>
  {
    if c == 0 then Some(OtherDevices) else if c == 3 then Some(Hyperflash) else None
  }

  /** `sFlashPad`: the code is the number of pads. */
  datatype FlashPadType = Single | Dual | Quad | Octal

  function FlashPadTypeCode(p: FlashPadType): (c: u8)
    ensures FlashPadTypeOfCode(c) == Some(p)
    ensures c == 1 || c == 2 || c == 4 || c == 8
  {
    match p
    case Single => 1
    case Dual => 2
    case Quad => 4
    case Octal => 8
  }

  function FlashPadTypeOfCode(c: u8): Option<FlashPadType>
  {
    if c == 1 then Some(Single) else if c == 2 then Some(Dual)
    else if c == 4 then Some(Quad) else if c == 8 then Some(Octal) else None
  }

  /** A FlexSPI serial flash region; its index selects one of the four size words. */
  datatype SerialFlashRegion = A1 | A2 | B1 | B2

  function RegionIndex(r: SerialFlashRegion): (i: nat)
    ensures i < 4
    ensures RegionOfIndex(i) == r
  {
    match r
    case A1 => 0
    case A2 => 1
    case B1 => 2
    case B2 => 3
  }

  function RegionOfIndex(i: nat): SerialFlashRegion
    requires i < 4
  {
    if i == 0 then A1 else if i == 1 then A2 else if i == 2 then B1 else B2
  }

  // ---------------------------------------------------------------------------
  // Device mode

  /** Sequence parameter for device mode configuration: how many LUT sequences, starting where. */
  datatype DeviceModeSequence = DeviceModeSequence(sequenceCount: u8, sequenceIndex: u8)

  /** `DeviceModeSequence::new(count, index)`; the reserved half-word is always zero. */
  function NewDeviceModeSequence(sequenceCount: u8, sequenceIndex: u8): (d: DeviceModeSequence)
    ensures d.sequenceCount == sequenceCount && d.sequenceIndex == sequenceIndex
  {
    DeviceModeSequence(sequenceCount, sequenceIndex)
  }

  /** `DeviceModeSequence::zeroed()`. */
  const ZEROED_DEVICE_MODE_SEQUENCE: DeviceModeSequence := NewDeviceModeSequence(0, 0)

  /**
   * The packed layout: count, index, then the reserved `u16` as zeros. Read as
   * a little-endian word it is `(index << 8) | count`.
   */
  function DeviceModeSequenceBytes(d: DeviceModeSequence): (r: seq<u8>)
    ensures |r| == 4
  {
    [d.sequenceCount, d.sequenceIndex, 0, 0]
  }

  /** Read as a little-endian word, the layout is `(index << 8) | count`. */
  lemma DeviceModeSequenceWord(d: DeviceModeSequence)
    ensures FromLe32(DeviceModeSequenceBytes(d)) == ((d.sequenceIndex as u32) << 8) | (d.sequenceCount as u32)
  {
    LowHalfWord(d.sequenceCount, d.sequenceIndex);
  }

  lemma LowHalfWord(lo: u8, hi: u8)
    ensures FromLe32([lo, hi, 0, 0]) == ((hi as u32) << 8) | (lo as u32)
  {
  }

  /** The zeroed sequence is four zero bytes. */
  lemma ZeroedIsZeros()
    ensures DeviceModeSequenceBytes(ZEROED_DEVICE_MODE_SEQUENCE) == Zeros(4)
  {
  }

  /** `deviceModeCfgEnable` together with `deviceModeArg` and `deviceModeSeq`. */
  datatype DeviceModeConfiguration =
    | Disabled
    | Enabled(deviceModeArg: u32, deviceModeSeq: DeviceModeSequence)

  // ---------------------------------------------------------------------------
  // Wait time

  /** `waitTimeCfgCommands`: a factor of 100 microseconds. */
  datatype WaitTimeConfigurationCommands = WaitTimeConfigurationCommands(factor: u16)

  /** `disable()`: no wait. */
  const WAIT_TIME_DISABLED: WaitTimeConfigurationCommands := WaitTimeConfigurationCommands(0)

  /** `new(us)`: the largest factor whose wait does not exceed `us` microseconds. */
  function NewWaitTime(us: u16): (w: WaitTimeConfigurationCommands)
    ensures w.factor * 100 <= us < (w.factor + 1) * 100
  {
    WaitTimeConfigurationCommands(us / 100)
  }

  /** Durations below 100 microseconds disable the wait; multiples of 100 are exact. */
  lemma NewWaitTimeCases(us: u16)
    ensures us < 100 <==> NewWaitTime(us) == WAIT_TIME_DISABLED
    ensures us % 100 == 0 ==> NewWaitTime(us).factor * 100 == us
  {
  }

  // ---------------------------------------------------------------------------
  // Serial clock frequency

  /**
   * Whether a frequency option exists on a family. The 75 MHz option is absent on
   * the 1160, 1170 and 1180; 120 MHz exists only on the 1010, 1040, 1060, 1064,
   * 1160, 1170 and 1180; 166 MHz is absent on the 1010.
   */
  predicate Present(family: Family, f: Frequency)
  {
    match f
    case MHz75 => !(family == Imxrt1160 || family == Imxrt1170 || family == Imxrt1180)
    case MHz120 =>
      family == Imxrt1010 || family == Imxrt1040 || family == Imxrt1060 || family == Imxrt1064
      || family == Imxrt1160 || family == Imxrt1170 || family == Imxrt1180
    case MHz166 => family != Imxrt1010
    case _ => true
  }

  /** Position of an option in the declaration, which lists the options slowest first. */
  function Rank(f: Frequency): (k: nat)
    ensures k < 9
  {
    match f
    case MHz30 => 0
    case MHz50 => 1
    case MHz60 => 2
    case MHz75 => 3
    case MHz80 => 4
    case MHz100 => 5
    case MHz120 => 6
    case MHz133 => 7
    case MHz166 => 8
  }

  /** The option declared at position `k`. */
  function OptionAt(k: nat): (f: Frequency)
    requires k < 9
    ensures Rank(f) == k
  {
    [MHz30, MHz50, MHz60, MHz75, MHz80, MHz100, MHz120, MHz133, MHz166][k]
  }

  /** Declaration order is frequency order. */
  lemma RankIsFrequencyOrder(f: Frequency, g: Frequency)
    ensures Rank(f) < Rank(g) <==> Megahertz(f) < Megahertz(g)
    ensures Rank(f) == Rank(g) <==> f == g
  {
  }

  /** How many of the first `k` declared options `family` has. */
  function PresentBefore(family: Family, k: nat): (n: nat)
    requires k <= 9
    ensures n <= k
  {
    if k == 0 then 0 else PresentBefore(family, k - 1) + (if Present(family, OptionAt(k - 1)) then 1 else 0)
  }

  /** A present option adds one to the count of every later position. */
  lemma {:induction false} PresentBeforeGrows(family: Family, j: nat, k: nat)
    requires j < k <= 9
    requires Present(family, OptionAt(j))
    ensures PresentBefore(family, j) < PresentBefore(family, k)
    decreases k
  {
    if j < k - 1 {
      PresentBeforeGrows(family, j, k - 1);
    }
  }

  /** Counting never decreases along the declaration. */
  lemma {:induction false} PresentBeforeMonotone(family: Family, j: nat, k: nat)
    requires j <= k <= 9
    ensures PresentBefore(family, j) <= PresentBefore(family, k)
    decreases k
  {
    if j < k {
      PresentBeforeMonotone(family, j, k - 1);
    }
  }

  /**
   * `serialClkFreq` as the enum discriminant on `family`: one plus the number of
   * options the family has that are declared before it (so one plus its position
   * among the family's options), or `None` when the family has no such option.
   */
  function SerialClockCode(family: Family, f: Frequency): (r: Option<nat>)
    ensures r.Some? <==> Present(family, f)
    ensures r.Some? ==> 1 <= r.value <= 9
  {
    if Present(family, f) then Some(1 + PresentBefore(family, Rank(f))) else None
  }

  /** On each family, a faster option has a larger code. */
  lemma SerialClockCodeIncreasing(family: Family, f: Frequency, g: Frequency)
    requires Present(family, f) && Present(family, g)
    requires Megahertz(f) < Megahertz(g)
    ensures SerialClockCode(family, f).value < SerialClockCode(family, g).value
  {
    RankIsFrequencyOrder(f, g);
    assert OptionAt(Rank(f)) == f by {
      RankIsFrequencyOrder(OptionAt(Rank(f)), f);
    }
    PresentBeforeGrows(family, Rank(f), Rank(g));
  }

  /** On each family, distinct options have distinct codes. */
  lemma SerialClockCodeInjective(family: Family, f: Frequency, g: Frequency)
    requires Present(family, f) && Present(family, g)
    ensures SerialClockCode(family, f) == SerialClockCode(family, g) <==> f == g
  {
    if Megahertz(f) < Megahertz(g) {
      SerialClockCodeIncreasing(family, f, g);
    } else if Megahertz(g) < Megahertz(f) {
      SerialClockCodeIncreasing(family, g, f);
    } else {
      RankIsFrequencyOrder(f, g);
    }
  }

  /** The codes a family uses are exactly 1 up to the number of options it has. */
  lemma SerialClockCodesDense(family: Family, c: nat)
    requires 1 <= c <= PresentBefore(family, 9)
    ensures exists f :: SerialClockCode(family, f) == Some(c)
  {
    var k := LastBelow(family, c - 1, 9);
    RankIsFrequencyOrder(OptionAt(k), OptionAt(k));
    assert SerialClockCode(family, OptionAt(k)) == Some(c);
  }

  /** The position of the family's `n`-th option (counting from 0) among the first `k` declared. */
  lemma {:induction false} LastBelow(family: Family, n: nat, k: nat) returns (j: nat)
    requires k <= 9 && n < PresentBefore(family, k)
    ensures j < k && Present(family, OptionAt(j)) && PresentBefore(family, j) == n
    decreases k
  {
    if PresentBefore(family, k - 1) > n {
      j := LastBelow(family, n, k - 1);
    } else {
      j := k - 1;
    }
  }

  /** The slowest option is code 1 on every family. */
  lemma SlowestIsOne(family: Family)
    ensures SerialClockCode(family, MHz30) == Some(1)
  {
  }

  /** Every family has 30, 50 and 60 MHz, as codes 1, 2 and 3. */
  lemma CommonClockCodes(family: Family)
    ensures SerialClockCode(family, MHz30) == Some(1)
    ensures SerialClockCode(family, MHz50) == Some(2)
    ensures SerialClockCode(family, MHz60) == Some(3)
  {
    assert PresentBefore(family, 2) == 2;
  }

  /** The 1050 has no 120 MHz option, so 133 and 166 MHz are 7 and 8. */
  lemma Imxrt1050SerialClockCodes()
    ensures SerialClockCode(Imxrt1050, MHz30) == Some(1)
    ensures SerialClockCode(Imxrt1050, MHz50) == Some(2)
    ensures SerialClockCode(Imxrt1050, MHz60) == Some(3)
    ensures SerialClockCode(Imxrt1050, MHz75) == Some(4)
    ensures SerialClockCode(Imxrt1050, MHz80) == Some(5)
    ensures SerialClockCode(Imxrt1050, MHz100) == Some(6)
    ensures SerialClockCode(Imxrt1050, MHz120) == None
    ensures SerialClockCode(Imxrt1050, MHz133) == Some(7)
    ensures SerialClockCode(Imxrt1050, MHz166) == Some(8)
  {
    assert PresentBefore(Imxrt1050, 3) == 3;
    assert PresentBefore(Imxrt1050, 6) == 6;
    assert PresentBefore(Imxrt1050, 8) == 7;
  }

  /** The 1160 has no 75 MHz option, so 80 MHz up to 166 MHz are 4 up to 8. */
  lemma Imxrt1160SerialClockCodes()
    ensures SerialClockCode(Imxrt1160, MHz30) == Some(1)
    ensures SerialClockCode(Imxrt1160, MHz50) == Some(2)
    ensures SerialClockCode(Imxrt1160, MHz60) == Some(3)
    ensures SerialClockCode(Imxrt1160, MHz75) == None
    ensures SerialClockCode(Imxrt1160, MHz80) == Some(4)
    ensures SerialClockCode(Imxrt1160, MHz100) == Some(5)
    ensures SerialClockCode(Imxrt1160, MHz120) == Some(6)
    ensures SerialClockCode(Imxrt1160, MHz133) == Some(7)
    ensures SerialClockCode(Imxrt1160, MHz166) == Some(8)
  {
    assert PresentBefore(Imxrt1160, 4) == 3;
    assert PresentBefore(Imxrt1160, 8) == 7;
  }

  /** The 1040 has every option: 30 MHz up to 166 MHz are 1 up to 9. */
  lemma Imxrt1040SerialClockCodes()
    ensures forall f :: SerialClockCode(Imxrt1040, f) == Some(Rank(f) + 1)
  {
  }
}
