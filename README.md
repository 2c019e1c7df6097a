# imxrt-boot-gen FCB encoder, modelled in Dafny

imxrt-boot-gen produces the Firmware Configuration Block (FCB). The FCB is the
structure the i.MX RT boot ROM reads from the start of a serial flash before it
boots anything. This project models the part of the crate that turns
configuration values into the FCB's bytes, in both of its API generations.

- **FlexSPI lookup-table instructions** (`FlexspiLut`). An instruction is two
  bytes, `[operand, (opcode << 2) | pads]`. A DDR opcode is its SDR opcode plus
  0x20. A sequence of eight instructions is sixteen bytes.
- **Lookup tables.**
  - `FlexspiLookup` is the newer table, updated by value.
  - `SerialFlashLookup` is the older one, a class over a 16-slot array updated
    in place.
  - Both place the seven standard commands at slots 0, 1, 3, 5, 9, 11 and 15.
- **Field encodings.**
  - `FlexspiFields` and `SerialFlashFields` hold the enum codes, the
    device-mode sequence and the wait-time scaling.
  - `FlexspiFields` also holds the serial clock numbering. Each chip family
    numbers only the options it has, so the numbering is a total function of
    an explicit `Chip.Family`.
  - `SerialFlashNor` holds the IP command clock codes and the NOR block.
- **The newer 448-byte common block** (`Flexspi`). It is a record built by
  value from `NewBlock` and a chain of setters. Its serialisation is the
  concatenation of its forty field encodings. The model proves the block is
  448 bytes long and that every field lies at its offset. Every setter's
  contract states that it rewrites only its own field's bytes.
- **The older builder** (`SerialFlashBuilder`, writing into `Fcb`).
  - `FCBBuilder` is a class whose setters update its fields in place.
  - `Build` writes the lookup table into a fresh 512-byte FCB buffer, then
    every field at its offset.
  - `Build`'s contract ties the buffer to the function `BuildImageAsWritten`
    of the builder's state. That is the source's image, with the wait time at
    0x013 (see "## Findings").
  - `BuildImage` is the same build with the wait time at 0x012, its place in
    the block.
  - The layout lemmas describe both images: each field sits at its offset,
    and every byte no field covers is zero.
- **Known-good images.**
  - `Teensy4` proves that the Teensy 4 settings build the repository's
    expected 128 words. It drives the builder's classes through the same
    steps as the repository's test.
  - `Imxrt1020Evk` proves the same for the i.MX RT1020 EVK's common block,
    built with the newer setter chain.

Some values are parameters of the model:
- The chip family, which the crate selects with Cargo features at build time.
- Durations, given to the model as whole microseconds.

Nothing in the model performs I/O.

## Model

| member | source | states |
|---|---|---|
| Bytes.Words | tests/teensy4.rs:125-129 | An image read as little-endian words has one word per four bytes, and word `k` is the little-endian value of bytes `4k`..`4k+3` |
| Fcb.NewImage | tests/teensy4.rs:149-150 | A fresh FCB is 512 bytes: tag `FCFB` and version 1.0.0 in the first eight bytes, zero everywhere else |
| Fcb.NewImageWords | tests/teensy4.rs:149-150 | Read as words, a fresh FCB opens with 0x4246_4346 and 0x5601_0000 |
| Fcb.Fcb.constructor | src/serial_flash/builder.rs:145 | A new buffer holds exactly the fresh image |
| Fcb.Fcb.FieldComment | src/serial_flash/builder.rs:149-153 | Writing a field puts its bytes at its offset and changes no other byte |
| FlexspiLut.PadsCode | src/flexspi_lut.rs:77-86 | A pad code fits in two bits and decodes back to the same pad count |
| FlexspiLut.NewInstr | src/flexspi_lut.rs:20-27 | Byte 0 decodes to the operand, the low two bits of byte 1 to the pads, and its top six bits to the opcode (exactly, for every opcode below 0x40) |
| FlexspiLut.ToDdr | src/flexspi_lut.rs:166-168 | A DDR opcode is its SDR opcode plus 0x20, without overflow |
| FlexspiLut.DdrIsSdrPlus20 | src/flexspi_lut.rs:170-182 | Each of the thirteen DDR opcodes is the SDR opcode of the same name plus 0x20 |
| FlexspiLut.SdrCodes | src/flexspi_lut.rs:105-145 | The SDR opcodes are 1 up to 13, in declaration order |
| FlexspiLut.OpcodesDistinct | src/flexspi_lut.rs:105-182 | The 28 defined opcodes, SDR, DDR, STOP and JUMP_ON_CS, are pairwise distinct and all at most 0x2D |
| FlexspiLut.DefinedOpcodesRoundTrip | src/flexspi_lut.rs:23 | For every defined opcode, decoding an instruction's byte 1 gives the opcode back |
| FlexspiLut.StopIsNewStop | src/flexspi_lut.rs:29-49 | `STOP` is two zero bytes, and is what `Instr::new` builds from the STOP opcode, one pad and operand 0 |
| FlexspiLut.InstrsBytesAt | src/flexspi_lut.rs:58-66 | Instruction `i` occupies bytes `2i` and `2i+1` of an encoding |
| FlexspiLut.EncodeSequence | src/flexspi_lut.rs:58-66 | The loop that fills a zeroed 16-byte buffer two bytes at a time produces bytes `2i`, `2i+1` = `instrs[i].raw`, which is the sequence's encoding |
| FlexspiLut.SequencesBytesAt | src/serial_flash/builder.rs:257-279 | In the encoding of a run of sequences, sequence `i` occupies bytes `16i` up to `16i+16` |
| FlexspiLut.SequencesBytesAppend | src/serial_flash/builder.rs:260 | The encoding of two runs placed back to back is their two encodings back to back |
| FlexspiLut.QuadIoFastReadCommand | src/flexspi_lut.rs:236-254 | The quad I/O fast read sequence encodes to `EB 04 18 0A 06 32 04 26` and eight zero bytes |
| FlexspiLut.MoreTeensy4MagicNumbers | src/flexspi_lut.rs:256-274 | The read-status sequence encodes to `05 04 04 24` and twelve zero bytes |
| FlexspiLut.WriteEnableSequence | tests/teensy4.rs:45-54 | The write-enable sequence encodes to `06 04` and fourteen zero bytes |
| FlexspiLut.StoppedIsZeros | src/flexspi/lookup.rs:62 | The stopped sequence encodes to sixteen zero bytes |
| FlexspiLookup.Slot | src/flexspi/lookup.rs:12-20 | Every standard command's slot is below 16 |
| FlexspiLookup.SlotInjective | src/flexspi/lookup.rs:12-20 | Different commands have different slots |
| FlexspiLookup.NumberOfSequences | src/flexspi/lookup.rs:23-24 | 256 bytes of table hold sixteen 16-byte sequences |
| FlexspiLookup.NewTable | src/flexspi/lookup.rs:61-63 | Every slot of a new table is the stopped sequence |
| FlexspiLookup.NewTableIsZeros | src/flexspi/lookup.rs:60-63 | A new table encodes to 256 zero bytes |
| FlexspiLookup.CustomCommand | src/flexspi/lookup.rs:72-75 | For an index below 16, that slot becomes the sequence and every other slot is unchanged |
| FlexspiLookup.SetCommand | src/flexspi/lookup.rs:65-67 | `command` is `custom_command` at the command's slot, and leaves every other command's slot unchanged |
| FlexspiLookup.CustomCommandCommutes | src/flexspi/lookup.rs:72-75 | Assignments to different slots commute |
| FlexspiLookup.CustomCommandLastWins | src/flexspi/lookup.rs:72-75 | Of two assignments to one slot, the later wins |
| FlexspiLookup.AllCommandsChain | src/flexspi/lookup.rs:84-93 | Assigning all seven commands in one chain keeps each command's sequence; the nine other slots stay stopped |
| FlexspiLookup.LookupTableBytes | src/flexspi/lookup.rs:51 | A table encodes to 256 bytes, with slot `i` at byte `16i` |
| FlexspiFields.ReadSampleClockSourceCode | src/flexspi/fields.rs:6-10 | Each sample clock source's code decodes back to it |
| FlexspiFields.ReadSampleClockSourceCodes | src/flexspi/fields.rs:6-10 | Exactly the codes 0, 1 and 3 name a source, and decoding them re-encodes to the same code |
| FlexspiFields.ColumnAddressWidthCode | src/flexspi/fields.rs:15-17 | Each column width's code decodes back to it |
| FlexspiFields.FlashPadTypeCode | src/flexspi/fields.rs:105-110 | A pad type's code is 1, 2, 4 or 8, and decodes back to it |
| FlexspiFields.RegionIndex | src/flexspi/fields.rs:141-146 | A region's index is below 4 and maps back to the region |
| FlexspiFields.NewDeviceModeSequence | src/flexspi/fields.rs:42-48 | The new sequence keeps count and index as given |
| FlexspiFields.DeviceModeSequenceWord | src/flexspi/fields.rs:28-35 | The packed layout `[count, index, 0, 0]`, read as a little-endian word, is `(index << 8) \| count` |
| FlexspiFields.ZeroedIsZeros | src/flexspi/fields.rs:50-52 | The zeroed sequence is `new(0, 0)`, four zero bytes |
| FlexspiFields.NewWaitTime | src/flexspi/fields.rs:97-99 | The factor is the largest number of whole 100 us periods within the duration |
| FlexspiFields.NewWaitTimeCases | src/flexspi/fields.rs:88-99 | A duration below 100 us gives the disabled wait time, and no other duration does; a multiple of 100 us is kept exactly |
| FlexspiFields.RankIsFrequencyOrder | src/flexspi/fields.rs:115-136 | The options are declared slowest first |
| FlexspiFields.SerialClockCode | src/flexspi/fields.rs:115-136 | An option has a code on a family exactly when the family has it (`Present`: 75 MHz is absent on the 1160, 1170 and 1180; 120 MHz exists only on the 1010, 1040, 1060, 1064, 1160, 1170 and 1180; 166 MHz is absent on the 1010), and every code is between 1 and 9 |
| FlexspiFields.SerialClockCodeIncreasing | src/flexspi/fields.rs:115-136 | On each family a faster option has a larger code |
| FlexspiFields.SerialClockCodeInjective | src/flexspi/fields.rs:115-136 | On each family, two options have the same code exactly when they are the same option |
| FlexspiFields.SerialClockCodesDense | src/flexspi/fields.rs:115-136 | Every code from 1 to the family's number of options is taken by an option |
| FlexspiFields.SlowestIsOne | src/flexspi/fields.rs:116 | 30 MHz is code 1 on every family |
| FlexspiFields.CommonClockCodes | src/flexspi/fields.rs:116-118 | 30, 50 and 60 MHz are codes 1, 2 and 3 on every family |
| FlexspiFields.Imxrt1050SerialClockCodes | tests/imxrt1050.rs:9-16 | The 1050 numbers 30 MHz up to 100 MHz as 1 up to 6, has no 120 MHz, and numbers 133 and 166 MHz as 7 and 8 |
| FlexspiFields.Imxrt1160SerialClockCodes | tests/imxrt1160.rs:9-16 | The 1160 has no 75 MHz, and numbers 80 MHz up to 166 MHz as 4 up to 8 |
| FlexspiFields.Imxrt1040SerialClockCodes | tests/imxrt1040.rs:8-16 | The 1040 numbers all nine options 1 up to 9 |
| Flexspi.NewVersion | src/flexspi.rs:76-80 | A version is stored little-endian as bugfix, minor, major, `'V'` |
| Flexspi.TagAndDefaultVersion | src/flexspi.rs:83-90 | The tag spells `FCFB` in memory, and the default version word is 0x5601_0000 |
| Flexspi.Serialize | src/flexspi.rs:335-336 | Every block serialises to exactly 448 bytes |
| Flexspi.FieldAt | src/flexspi.rs:134-176 | Each of the forty fields lies at the sum of the widths before it |
| Flexspi.HeaderLayout | src/flexspi.rs:135-137 | Tag at 0x000, version at 0x004, reserved bytes at 0x008 |
| Flexspi.TimingLayout | src/flexspi.rs:138-142 | Sample clock source at 0x00C, CS hold at 0x00D, CS setup at 0x00E, column width at 0x00F, device mode flag at 0x010 |
| Flexspi.DeviceModeLayout | src/flexspi.rs:147-149 | Wait time at 0x012, device mode sequence at 0x014, argument at 0x018 |
| Flexspi.FlashLayout | src/flexspi.rs:156-163 | Controller options at 0x040, device type at 0x044, pad type at 0x045, clock code at 0x046, the four sizes at 0x050 up to 0x05F |
| Flexspi.TailLayout | src/flexspi.rs:173-175 | The lookup table at 0x080 up to 0x17F, the custom sequence at 0x180, reserved bytes at 0x1B0 up to 0x1BF |
| Flexspi.WithVersion | src/flexspi.rs:227-230 | Only the four bytes at 0x004 change, to the new version |
| Flexspi.WithReadSampleClkSrc | src/flexspi.rs:235-238 | Only byte 0x00C changes, to the source's code |
| Flexspi.WithCsHoldTime | src/flexspi.rs:243-246 | Only byte 0x00D changes |
| Flexspi.WithCsSetupTime | src/flexspi.rs:251-254 | Only byte 0x00E changes |
| Flexspi.WithColumnAddressWidth | src/flexspi.rs:259-262 | Only byte 0x00F changes, to the width's code |
| Flexspi.WithDeviceModeConfiguration | src/flexspi.rs:270-288 | `Disabled` changes only byte 0x010 (to 0), leaving sequence and argument as they were; `Enabled` writes 1 at 0x010, the sequence at 0x014 and the argument at 0x018 |
| Flexspi.WithWaitTimeCfgCommands | src/flexspi.rs:293-299 | Only the two bytes at 0x012 change, to the factor, low byte first |
| Flexspi.WithSerialFlashPadType | src/flexspi.rs:304-307 | Only byte 0x045 changes, to the pad code |
| Flexspi.WithSerialClkFreq | src/flexspi.rs:312-315 | Only byte 0x046 changes, to the code the option has on the family given as a parameter |
| Flexspi.WithFlashSize | src/flexspi.rs:320-323 | Only the region's size entry changes; only the four bytes at 0x050 plus four times the region's index change |
| Flexspi.WithControllerMiscOptions | src/flexspi.rs:329-332 | Only the four bytes at 0x040 change |
| Flexspi.NewBlock | src/flexspi.rs:181-222 | The default block holds the given lookup table; its bytes are `NewBlockLayout`'s |
| Flexspi.NewBlockLayout | src/flexspi.rs:181-222 | The default block: tag, version 1.0.0, reserved zeros, sample clock 0, CS times 3 and 3, width 0, zeros up to 0x044, one pad, clock code 1, zeros, the given lookup table at 0x080, zeros to the end |
| Flexspi.NewBlockClockIsSlowest | src/flexspi.rs:199 | The default clock byte is the 30 MHz code on every family |
| Imxrt1020Evk.BlockIsEvkBlock | tests/imxrt1020-evk.rs:34-45 | The EVK's setter chain yields exactly the block written out field by field |
| Imxrt1020Evk.ClockCodeOn1020 | tests/imxrt1020-evk.rs:44 | 100 MHz is code 6 on the 1020 |
| Imxrt1020Evk.LutBytes | tests/imxrt1020-evk.rs:17-28 | The EVK table encodes to the read sequence's bytes, then zeros |
| Imxrt1020Evk.Imxrt1020EvkImage | tests/imxrt1020-evk.rs:73-186 | The EVK block's 448 bytes read as the expected words: version 0x5601_0400, 0x0003_0301 at 0x00C, pad 4 and clock 6, A1 size 0x0080_0000, the LUT words 0x0A18_04EB and 0x2604_3206, and zero in every other byte |
| SerialFlashLookup.CommandIndexName | src/serial_flash/lookup.rs:24-36 | A slot index has a name exactly when it is 0, 1, 3, 5, 9, 11 or 15 |
| SerialFlashLookup.CommandIndexNameIff | src/serial_flash/lookup.rs:24-36 | A slot index has a name exactly when some command sits at that slot |
| SerialFlashLookup.CommandIndexNameInjective | src/serial_flash/lookup.rs:24-36 | Distinct commands have distinct names |
| SerialFlashLookup.LookupTable.constructor | src/serial_flash/lookup.rs:74-84 | A new table has sixteen stopped sequences |
| SerialFlashLookup.LookupTable.Index | src/serial_flash/lookup.rs:94-100 | `lut[cmd]` is the sequence at the command's slot |
| SerialFlashLookup.LookupTable.SetIndex | src/serial_flash/lookup.rs:102-106 | `lut[cmd] = s` changes only the command's slot; reading it back gives `s`, and every other command reads as before |
| SerialFlashLookup.LookupTable.Iter | src/serial_flash/lookup.rs:86-91 | Sixteen pairs in slot order; pair `i` is slot `i` with its command's name, a name being present exactly at slots 0, 1, 3, 5, 9, 11 and 15 |
| SerialFlashFields.NewDeviceModeSequence | src/serial_flash/fields.rs:34-38 | The raw bytes are `[count, start, 0, 0]` |
| SerialFlashFields.DeviceModeSequenceLayoutsAgree | src/serial_flash/fields.rs:28-39 | The older and newer device mode sequences have the same bytes |
| SerialFlashFields.FromDuration | src/serial_flash/fields.rs:85-93 | No wait time exactly when the duration is below 100 us or its factor exceeds 0xFFFF; otherwise the nonzero factor of whole 100 us periods |
| SerialFlashFields.FromDurationRoundTrip | src/serial_flash/fields.rs:85-93 | A nonzero whole number of periods comes back unchanged, and any factor returned brackets the duration: `100 * factor <= us < 100 * (factor + 1)` |
| SerialFlashFields.DisableIsNoDuration | src/serial_flash/fields.rs:76-78 | No duration yields the disabled wait time |
| SerialFlashFields.SerialClockCode | src/serial_flash/fields.rs:117-129 | Every option has a code except 166 MHz, which exists only on the 1061, 1062 and 1064 |
| SerialFlashFields.SerialClockCodeIsRank | src/serial_flash/fields.rs:117-129 | 30 MHz up to 166 MHz are 1 up to 9 in frequency order; codes are increasing and injective |
| SerialFlashFields.GenerationsAgreeOn1064 | src/serial_flash/fields.rs:117-129 | On the 1064 both generations give every option the same code |
| SerialFlashFields.SerialFlashSize.constructor | src/serial_flash/fields.rs:156-160 | All four sizes start at zero |
| SerialFlashFields.SerialFlashSize.Index | src/serial_flash/fields.rs:143-148 | `size[region]` is the entry at the region's index |
| SerialFlashFields.SerialFlashSize.SetIndex | src/serial_flash/fields.rs:150-154 | `size[region] = n` changes only that region's entry |
| SerialFlashNor.IpClockCode | src/serial_flash/nor.rs:8-25 | NoChange is 0 and every code is at most 9; `IpClockCodeIsPosition` pins each value |
| SerialFlashNor.IpClockCodeIsPosition | src/serial_flash/nor.rs:8-25 | An option's code is one more than the number of options before it that exist on that family (so 30 MHz is 1 everywhere; on the 1011, 133 MHz is 7) |
| SerialFlashNor.IpClockCodesDense | src/serial_flash/nor.rs:8-25 | Every code from 1 up to the number of options on the family belongs to some option |
| SerialFlashNor.IpClockCodePresent | src/serial_flash/nor.rs:8-25 | 30 MHz up to 100 MHz exist everywhere; 133 MHz exists on the 1011, 1061, 1062 and 1064 only; 120 and 166 MHz exist on the 1061, 1062 and 1064 only |
| SerialFlashNor.IpClockCodeIncreasing | src/serial_flash/nor.rs:8-25 | On each family clock codes are nonzero, increase with frequency, and are injective |
| SerialFlashBuilder.FCBBuilder.constructor | src/serial_flash/builder.rs:40-54 | Internal loopback, CS times 3 and 3, other devices, device mode disabled, no wait, the given device type, single pad, 30 MHz, all sizes zero, the given table |
| SerialFlashBuilder.FCBBuilder.SetReadSampleClkSrc | src/serial_flash/builder.rs:59-62 | Only the sample clock source changes |
| SerialFlashBuilder.FCBBuilder.SetCsHoldTime | src/serial_flash/builder.rs:67-70 | Only the CS hold time changes |
| SerialFlashBuilder.FCBBuilder.SetCsSetupTime | src/serial_flash/builder.rs:75-78 | Only the CS setup time changes |
| SerialFlashBuilder.FCBBuilder.SetColumnAddressWidth | src/serial_flash/builder.rs:83-86 | Only the column width changes |
| SerialFlashBuilder.FCBBuilder.SetDeviceModeConfiguration | src/serial_flash/builder.rs:94-100 | Only the device mode configuration changes |
| SerialFlashBuilder.FCBBuilder.SetWaitTimeCfgCommands | src/serial_flash/builder.rs:105-111 | Only the wait time changes |
| SerialFlashBuilder.FCBBuilder.SetSerialFlashPadType | src/serial_flash/builder.rs:116-119 | Only the pad type changes |
| SerialFlashBuilder.FCBBuilder.SetSerialClkFreq | src/serial_flash/builder.rs:124-127 | Only the serial clock changes |
| SerialFlashBuilder.FCBBuilder.SetFlashSize | src/serial_flash/builder.rs:132-135 | Only the given region's size changes |
| SerialFlashBuilder.FCBBuilder.Build | src/serial_flash/builder.rs:144-255 | A fresh FCB whose bytes are `BuildImageAsWritten` of the builder's state, the source's image; the builder is left as it was |
| SerialFlashBuilder.FCBBuilder.SerializeLookup | src/serial_flash/builder.rs:257-279 | The nested loop writes the sixteen slots' encodings back to back from 0x080 and changes nothing else |
| SerialFlashBuilder.SerializeSequence | src/serial_flash/builder.rs:261-277 | One slot's eight instructions land two bytes each at the running offset, which advances by 16 |
| SerialFlashBuilder.FCBBuilder.WriteTimingFields | src/serial_flash/builder.rs:149-183 | The single bytes at 0x00C up to 0x010, the wait time at 0x013 as the source writes it, and (only when enabled) the device mode sequence and argument |
| SerialFlashBuilder.FCBBuilder.WriteDeviceFields | src/serial_flash/builder.rs:190-231 | Device type, pad type and clock code at 0x044 up to 0x046, then the four sizes, little-endian, from 0x050 |
| SerialFlashBuilder.FCBBuilder.WriteNorFields | src/serial_flash/builder.rs:243-253 | Page size at 0x1C0, sector size at 0x1C4, IP clock code at 0x1C8 |
| SerialFlashBuilder.BuildHeaderLayout | src/serial_flash/builder.rs:149-169 | In both images, the image opens with the fresh header and a zero word, then sample clock, CS hold, CS setup, column width, the device mode flag (1 exactly when enabled), and a zero at 0x011 |
| SerialFlashBuilder.BuildWaitLayout | src/flexspi.rs:146-147 | In the corrected image, the wait time sits at 0x012 and 0x013, low byte first, as the packed block places it |
| SerialFlashBuilder.BuildDeviceModeLayout | src/serial_flash/builder.rs:170-183 | In the source's image: when enabled, bytes 0x014 up to 0x01B hold the sequence and the argument; when disabled, 0x014 holds the wait time's high byte and 0x015 up to 0x01B are zero |
| SerialFlashBuilder.CorrectedDeviceModeLayout | src/flexspi.rs:146-149 | In the corrected image, bytes 0x014 up to 0x01B hold the sequence and the argument when enabled, and are zero when disabled |
| SerialFlashBuilder.BuildDeviceLayout | src/serial_flash/builder.rs:190-231 | In both images, zeros from 0x01C, device type 1 at 0x044, pad and clock codes, zeros, the four sizes at 0x050 up to 0x05F, zeros up to 0x080 |
| SerialFlashBuilder.BuildLutLayout | src/serial_flash/builder.rs:257-279 | In both images, bytes 0x080 up to 0x17F are the table's encoding |
| SerialFlashBuilder.BuildInstrAt | src/serial_flash/builder.rs:260-276 | In both images, instruction `k` of slot `i` lands at `0x080 + 16i + 2k`, operand first |
| SerialFlashBuilder.BuildNorLayout | src/serial_flash/builder.rs:243-253 | In both images, zeros from 0x180, the NOR fields at 0x1C0 up to 0x1C8, zeros to the end |
| SerialFlashBuilder.BuildImageAt | src/serial_flash/builder.rs:144-255 | A build with the wait time at a given offset is 512 bytes; the layout lemmas give every byte |
| SerialFlashBuilder.BuildImageAsWritten | src/serial_flash/builder.rs:144-255 | The source's build, the wait time at 0x013, is 512 bytes; `AsWrittenWaitTime`, `BuildDeviceModeLayout` and the layout lemmas give every byte |
| SerialFlashBuilder.BuildImage | src/flexspi.rs:134-176 | The corrected build, the wait time at 0x012, is 512 bytes; `BuildWaitLayout`, `CorrectedDeviceModeLayout` and the layout lemmas give every byte |
| SerialFlashBuilder.BuildZeros | src/serial_flash/builder.rs:144-255 | In both images, every byte range no write covers keeps the fresh FCB's zero |
| SerialFlashBuilder.AsWrittenWaitTime | src/serial_flash/builder.rs:170-174 | Written at 0x013, the wait time leaves 0x012 zero, puts its low byte at 0x013, and puts its high byte at 0x014 when device mode is disabled |
| SerialFlashBuilder.WaitTimeMisplaced | src/serial_flash/builder.rs:170-174 | With factor 0x0102 and device mode disabled, the bytes the builder writes at 0x012 up to 0x014 are `00 02 01` |
| SerialFlashBuilder.NoWaitAgrees | src/serial_flash/builder.rs:170-174 | With no wait time, the as-written image and the corrected one are equal |
| Teensy4.TeensyHeader | tests/teensy4.rs:149-164 | With the test's fields, the first sixteen words are the expected ones |
| Teensy4.TeensyDeviceRegion | tests/teensy4.rs:165-180 | With the test's fields, words 16 up to 31 are the expected ones |
| Teensy4.TeensyLut | tests/teensy4.rs:181-244 | With the test's table, the lookup table's 64 words are the expected ones |
| Teensy4.TeensyNor | tests/teensy4.rs:245-278 | With the test's NOR block, the last 32 words are the expected ones |
| Teensy4.Teensy4Image | tests/teensy4.rs:146-278 | The test's settings build exactly the 128 expected words, on every family where they are valid |
| Teensy4.Teensy4ImageAsWritten | tests/teensy4.rs:113 | The as-written image reads as the same 128 words, because the test's wait time is zero |
| Teensy4.TeensyLookupTable | tests/teensy4.rs:96-106 | A fresh table with the six Winbond sequences at their command slots, every other slot stopped |
| Teensy4.TeensyBuilder | tests/teensy4.rs:107-111 | A new builder for the NOR block and table, with DQS loopback, hold 1, setup 2 and other devices |
| Teensy4.TeensyDevice | tests/teensy4.rs:112-120 | Device mode and wait time disabled, 2 MiB on A1, 60 MHz, quad pads; nothing else changes |
| Teensy4.TeensyBuild | tests/teensy4.rs:124-142 | Building from the test's settings gives an FCB whose words are the expected ones |
| Teensy4.Teensy4Fcb | tests/teensy4.rs:89-143 | The whole test, step by step on the classes: the FCB holds the 128 expected words, whichever family the builder targets |

## Left out

- `SequenceBuilder` is not part of this model. Sequences are always eight
  instructions; the EVK and Teensy sequences are written out with trailing STOPs.
- The `Imxrt` chip API and its `SerialClockOption` type are not part of this
  model. The newer serial clock numbering is modelled from the `cfg`-gated enum
  in `src/flexspi/fields.rs` instead.
- The newer `nor::ConfigurationBlock` (page size, sector size, the IP clock
  and the extras after the common block) is not part of this model. So the EVK
  lemma covers the 448-byte common block only. There the device type byte
  stays 0, which the newer NOR block would set to 1.
- The IP clock tables in `tests/imxrt1050.rs` and `tests/imxrt1160.rs` belong
  to a `nor.rs` revision that is not part of this model. The `nor.rs` that is
  modelled only gates options for the 1011, 1061, 1062 and 1064.
- `fcb::FCB` is not part of this model. The model uses a 512-byte buffer
  holding the header that the expected Teensy 4 words open with, and zero
  everywhere else. Bytes are written at offsets one by one, so a later write
  replaces an earlier one's bytes: with device mode enabled, the sequence
  replaces the wait time's high byte at 0x014.
- Display implementations, the comment strings given to `field_comment`, and
  the `format!` labels of `serialze_lookup` are text formatting, so they are
  left out.
- `build.rs` and the Cargo feature selection are left out. The chip family is
  a parameter instead.
- A `std::time::Duration` is given to the model as whole microseconds.
  `as_micros` truncates, so the model sees the same value.
- `FCBBuilder.Build`: the source returns a `Result` that is always `Ok`. The
  model returns the FCB directly.
- `FCBBuilder.Build`'s writes are grouped into three helper methods. Each
  helper performs the source's writes in the source's order.
- `Teensy4.Teensy4Fcb`: the repository's test uses an older struct-literal
  `Builder` API that is not part of this model. It is reproduced through
  `FCBBuilder`'s constructor and setters, with the same field values.
- `FCBBuilder` holds its lookup table by reference, where the source moves the
  table into the builder. Aliasing beyond the builder's own use is not
  modelled.
- `FlexspiLookup.CustomCommand` requires an index below 16. The source's
  array index panics in that case; in a `const` it fails to compile.
- `Bytes.Words` drops a trailing partial word. Every image it is applied to
  has a length that is a multiple of four.
- `FlexspiLut.NewInstr`: an opcode of 0x40 or more loses its top bits in the
  source's `u8` shift, as in the model. The decoding property is stated only
  for opcodes below 0x40, which covers every defined opcode.

## Findings

| source | as written | input that shows it | evidently intended | confidence | as-written member | corrected member |
|---|---|---|---|---|---|---|
| src/serial_flash/builder.rs:170-174 | `build` writes the two-byte `waitTimeCfgCommands` at offset 0x013 | A wait time factor of 0x0102 with device mode disabled: bytes 0x012 up to 0x014 become `00 02 01`. The boot ROM then reads a wait time of 0x0200 and a device mode sequence of 1 | Offset 0x012, where the packed block places the field (src/flexspi.rs:146-147) and where the expected Teensy 4 words put it (tests/teensy4.rs:153) | not executed | SerialFlashBuilder.WaitTimeMisplaced | SerialFlashBuilder.BuildWaitLayout |

The repository's Teensy 4 test cannot see this discrepancy, because its wait
time is zero. `Teensy4.Teensy4ImageAsWritten` proves that both images agree in
that case. `FCBBuilder.Build` writes the field at 0x013, as the source does, so
the Teensy 4 FCB that `Teensy4.Teensy4Fcb` builds is the source's image;
`BuildImage` is the corrected build, and `BuildWaitLayout` and
`CorrectedDeviceModeLayout` state its layout.
