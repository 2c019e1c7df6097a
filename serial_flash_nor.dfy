/**
 * The serial NOR part of the older FCB: page size, sector size and the clock
 * for IP commands, whose numbering depends on the chip family.
 */
module SerialFlashNor {
  import opened Bytes
  import opened Chip
  import FlexspiFields

  /** `ipCmdSerialClkFreq`: keep the current clock, or switch to a frequency. */
  datatype SerialClockFrequency = NoChange | Clock(f: Frequency)

  /** The families whose IP command clock reaches 166 MHz. */
  predicate Imxrt106x(family: Family)
  {
    family == Imxrt1061 || family == Imxrt1062 || family == Imxrt1064
  }

  /**
   * The code of an IP command clock on `family`, or `None` where the family has
   * no such option: no change is 0 and 30 MHz up to 100 MHz are 1 up to 6 on
   * every family; the 1061, 1062 and 1064 go on with 120, 133 and 166 MHz as 7,
   * 8 and 9, while the 1011 has 133 MHz as 7 and nothing else above 100 MHz.
   */
  function IpClockCode(family: Family, c: SerialClockFrequency): (r: Option<u8>)
    ensures c == NoChange ==> r == Some(0)
    ensures r.Some? ==> r.value <= 9
  {
    match c
    case NoChange => Some(0)
    case Clock(f) =>
      match f
      case MHz30 => Some(1)
      case MHz50 => Some(2)
      case MHz60 => Some(3)
      case MHz75 => Some(4)
      case MHz80 => Some(5)
      case MHz100 => Some(6)
      case MHz120 => if Imxrt106x(family) then Some(7) else None
      case MHz133 => if family == Imxrt1011 then Some(7) else if Imxrt106x(family) then Some(8) else None
      case MHz166 => if Imxrt106x(family) then Some(9) else None
  }

  /** Which options exist: up to 100 MHz everywhere, 133 MHz on the 1011 and the 106x, 120 and 166 MHz on the 106x only. */
  lemma IpClockCodePresent(family: Family, f: Frequency)
    ensures Megahertz(f) <= 100 ==> IpClockCode(family, Clock(f)).Some?
    ensures f == MHz133 ==> (IpClockCode(family, Clock(f)).Some? <==> family == Imxrt1011 || Imxrt106x(family))
    ensures f == MHz120 || f == MHz166 ==> (IpClockCode(family, Clock(f)).Some? <==> Imxrt106x(family))
  {
  }

  /** On every family, a faster clock has a larger code, so distinct options have distinct codes. */
  lemma IpClockCodeIncreasing(family: Family, f: Frequency, g: Frequency)
    requires IpClockCode(family, Clock(f)).Some? && IpClockCode(family, Clock(g)).Some?
    ensures 0 < IpClockCode(family, Clock(f)).value
    ensures Megahertz(f) < Megahertz(g) <==> IpClockCode(family, Clock(f)).value < IpClockCode(family, Clock(g)).value
    ensures IpClockCode(family, Clock(f)) == IpClockCode(family, Clock(g)) <==> f == g
  {
  }

  /** Whether `family` has clock option `f` for IP commands. */
  predicate IpPresent(family: Family, f: Frequency)
  {
    IpClockCode(family, Clock(f)).Some?
  }

  /** How many of the first `k` declared options `family` has for IP commands. */
  function IpPresentBefore(family: Family, k: nat): (n: nat)
    requires k <= 9
    ensures n <= k
  {
    if k == 0 then 0
    else IpPresentBefore(family, k - 1) + (if IpPresent(family, FlexspiFields.OptionAt(k - 1)) then 1 else 0)
  }

  /** The counts along the declaration: every family has the first six options; the 1011 adds 133 MHz, the 106x all three. */
  lemma IpPresentBeforeValues(family: Family)
    ensures forall k :: 0 <= k <= 6 ==> IpPresentBefore(family, k) == k
    ensures IpPresentBefore(family, 7) == 6 + (if Imxrt106x(family) then 1 else 0)
    ensures IpPresentBefore(family, 8) == 6 + (if Imxrt106x(family) then 2 else if family == Imxrt1011 then 1 else 0)
    ensures IpPresentBefore(family, 9) == 6 + (if Imxrt106x(family) then 3 else if family == Imxrt1011 then 1 else 0)
  {
    forall k | 0 <= k <= 6
      ensures IpPresentBefore(family, k) == k
    {
      IpPresentBeforeLow(family, k);
    }
    assert IpPresentBefore(family, 6) == 6;
    assert FlexspiFields.OptionAt(6) == MHz120 && FlexspiFields.OptionAt(7) == MHz133 && FlexspiFields.OptionAt(8) == MHz166;
  }

  /** Each family has every one of the first six options. */
  lemma {:induction false} IpPresentBeforeLow(family: Family, k: nat)
    requires k <= 6
    ensures IpPresentBefore(family, k) == k
  {
    if k > 0 {
      IpPresentBeforeLow(family, k - 1);
      IpClockCodePresent(family, FlexspiFields.OptionAt(k - 1));
    }
  }

  /**
   * The numbering of the IP command clock: an option's code is one plus the
   * number of the family's options declared before it, so the codes of the
   * options a family has run from 1 without gaps, in frequency order.
   */
  lemma IpClockCodeIsPosition(family: Family, f: Frequency)
    requires IpPresent(family, f)
    ensures IpClockCode(family, Clock(f)).value as int == 1 + IpPresentBefore(family, FlexspiFields.Rank(f))
  {
    if FlexspiFields.Rank(f) < 6 {
      IpPresentBeforeLow(family, FlexspiFields.Rank(f));
    } else {
      IpPresentBeforeValues(family);
    }
  }

  /** Every code from 1 up to the number of options the family has belongs to an option. */
  lemma IpClockCodesDense(family: Family, c: nat)
    requires 1 <= c <= IpPresentBefore(family, 9)
    ensures exists f :: IpPresent(family, f) && IpClockCode(family, Clock(f)).value as int == c
  {
    var f;
    if c <= 6 {
      f := LowCodeOption(family, c);
    } else {
      f := HighCodeOption(family, c);
    }
  }

  /** The option with code `c` up to 6: the `c`-th declared one, which every family has. */
  lemma LowCodeOption(family: Family, c: nat) returns (f: Frequency)
    requires 1 <= c <= 6
    ensures IpPresent(family, f) && IpClockCode(family, Clock(f)).value as int == c
  {
    f := FlexspiFields.OptionAt(c - 1);
  }

  /** The option with a code above 6: 133 MHz on the 1011, and 120, 133 or 166 MHz on the 106x. */
  lemma HighCodeOption(family: Family, c: nat) returns (f: Frequency)
    requires 6 < c <= IpPresentBefore(family, 9)
    ensures IpPresent(family, f) && IpClockCode(family, Clock(f)).value as int == c
  {
    IpPresentBeforeValues(family);
    f := if family == Imxrt1011 || c == 8 then MHz133 else if c == 7 then MHz120 else MHz166;
  }

  /** `nor::ConfigurationBlock`: exactly the three NOR fields. */
  datatype ConfigurationBlock = ConfigurationBlock(pageSize: u32, sectorSize: u32, ipCmdSerialClkFreq: SerialClockFrequency)
}
