# C64 emulator core, modelled in Dafny

This project models the core of a small Commodore 64 emulator written in C# for Unity. The core has six parts:

- **Memory** (`memory.dfy`). The 64 KB RAM with the I/O shadow at $D000-$DFFF. The processor port at $01 banks I/O in and out. Reads and writes in the I/O area go first to the emulator's hooks.
- **I/O hooks** (`io_hooks.dfy`). The registers the emulator answers itself:
  - the keyboard and joystick ports of CIA 1;
  - the raster line and raster IRQ of the video chip;
  - timer A of CIA 1 and its IRQ;
  - the SID registers, which flush the audio before each store.
- **The 6502 processor** (`alu.dfy`, `cpu.dfy`, `cpu_laws.dfy`):
  - the status register, ADC and SBC in binary and decimal, compares, shifts, rotates and steps;
  - the addressing modes with their page-crossing penalty;
  - the stack;
  - the opcode switch, including the jam (KIL) opcodes;
  - reset, jam, NMI and IRQ service, in that order;
  - the KERNAL trap: any opcode fetch at $FF00 or above calls the emulator and then runs as RTS.
- **KERNAL traps** (`kernal.dfy`). SETNAM, CHKIN, CHRIN, CHKOUT, CHROUT, CLOSE and CIOUT, served from a disk image.
- **Disk image** (`disk_image.dfy`):
  - the D64 and D81 sector layouts;
  - the directory search along the chain of directory sectors;
  - reading a file byte by byte along its sector chain.
- **The VIC-II** (`vic2.dfy`). One raster line at a time:
  - bad lines and character-row fetches;
  - the border, text and bitmap modes, each in single colour and multicolour, plus extended background colour;
  - the eight sprites with X expansion and multicolour.
- **The SID** (`sid.dfy`). Three voices, each with an ADSR envelope, a 24-bit phase accumulator, a noise register and the waveform generators. The voices are wired into a hard-sync and ring-modulation ring.
- **The emulator** (`emulator.dfy`):
  - power-on register values;
  - booting the first program of the disk;
  - running one raster line of processor cycles with the IRQ line held at the interrupt flags;
  - a frame of 312 lines, 200 of them drawn, with the audio buffered to the frame's last cycle.

Bytes and words are integers in 0..255 and 0..65535. Every wrap-around of the C# `byte`/`ushort` arithmetic is written out explicitly.

Code that changes state in place keeps that form in the model. `Ram64K`, `IoHooks`, `Mos6502`, `KernalTraps`, `DiskImage`, `FileHandle`, `Vic2`, `SidChannel`, `Sid` and `Emulator` are classes. Their methods are proved against functions of their old state (`State() == Step(old(State()))`). The properties of the C# code are lemmas about those functions.

Where the disk image, the KERNAL traps and the boot loader would throw an exception in C#, the model returns a fault result instead. This covers an index outside the disk image, the sector table or the RAM array. It also covers the warning message on a short file name. The one out-of-range write of the video chip is handled differently: see "## Findings".

Some C# loops have no bound. These are the directory walk and the boot load, which depend on the contents of the image, and the line loop, which depends on the program. Each of them takes a fuel argument, and running out of fuel is reported as its own outcome.

## Model

| member | source | states |
|---|---|---|
| Bits.Word | Assets/Scripts/RAM64K.cs:91-96 | a 16-bit word built from a low and a high byte gives those bytes back |
| Bits.Signed8 | Assets/Scripts/MOS6502.cs:385 | a byte read as signed lies in -128..127 and wraps back to the same byte |
| Alu.StatusBitAt | Assets/Scripts/MOS6502.cs:97-110 | bit j of the packed status is set exactly when its flag is (bits 0-3, 6, 7), the break bit for bit 4, and always for bit 5 |
| Alu.StatusRoundTrip | Assets/Scripts/MOS6502.cs:97-120 | writing a byte into the status and reading it back gives the byte with bits 4 and 5 set |
| Alu.UnpackedFlagBit | Assets/Scripts/MOS6502.cs:111-120 | after a status write each flag bit of the status reads back as written, bits 4 and 5 as set |
| Alu.UnpackPack | Assets/Scripts/MOS6502.cs:97-120 | unpacking a packed status gives back the flags |
| Alu.BreakMasked | Assets/Scripts/MOS6502.cs:618 | the status with $EF masked off is the status packed with the break bit clear, as NMI and IRQ push it |
| Alu.FlagBitBreak | Assets/Scripts/MOS6502.cs:106 | the pushed status with and without the break bit differ only in bit 4 |
| Alu.AdcBinaryMeaning | Assets/Scripts/MOS6502.cs:346-353 | binary ADC leaves the sum modulo 256 with the carry out in C, V set exactly when the signed sum does not fit, Z and N from the result, I and D kept |
| Alu.SbcBinaryMeaning | Assets/Scripts/MOS6502.cs:553-560 | binary SBC leaves the difference with borrow modulo 256, C set exactly when no borrow was needed, V set exactly when the signed difference does not fit, Z and N from the result, I and D kept |
| Alu.ToBcdMeaning | Assets/Scripts/MOS6502.cs:320-345 | a number below 100 packed as two decimal digits is a valid decimal byte of that value |
| Alu.AdcNibblesOfBcd | Assets/Scripts/MOS6502.cs:325-329 | on decimal operands the units sum is the sum of the units digits and carry, and the tens sum adds the tens digits and the half carry |
| Alu.AddAdjust | Assets/Scripts/MOS6502.cs:339-344 | adding 6 to each nibble that passed 9 leaves the last two decimal digits of the sum, and the carry says the sum reached 100 |
| Alu.AdcDecimalOf | Assets/Scripts/MOS6502.cs:323-345 | decimal ADC packs the adjusted nibble sums into A and sets C exactly when the tens sum passed $9F |
| Alu.AdcDecimalMeaning | Assets/Scripts/MOS6502.cs:320-345 | decimal ADC on valid decimal operands leaves the last two digits of the decimal sum in A and sets C exactly when the sum reached 100 |
| Alu.SbcNibblesOfBcd | Assets/Scripts/MOS6502.cs:532-536 | on decimal operands the units and tens differences are those of the digits, offset by $F and $F0, with the carry and half carry |
| Alu.SubtractAdjust | Assets/Scripts/MOS6502.cs:546-551 | subtracting 6 from each nibble that borrowed leaves the decimal digits of the difference modulo 100, and the carry says no borrow was needed |
| Alu.SubtractAdjustNoHalfBorrow | Assets/Scripts/MOS6502.cs:546-551 | when the low digit did not borrow, only the high nibble is corrected and the result is the decimal difference modulo 100, with carry set exactly when no borrow was needed |
| Alu.SubtractAdjustHalfBorrow | Assets/Scripts/MOS6502.cs:546-551 | when the low digit borrowed, 6 is taken off it and the result is the decimal difference modulo 100, with carry set exactly when no borrow was needed |
| Alu.SbcDecimalOf | Assets/Scripts/MOS6502.cs:530-552 | decimal SBC packs the adjusted nibble differences into A and sets C exactly when the tens difference passed $FF |
| Alu.SbcDecimalMeaning | Assets/Scripts/MOS6502.cs:527-552 | decimal SBC on valid decimal operands leaves the decimal difference with borrow, modulo 100, in A and sets C exactly when no borrow was needed |
| Alu.AdcDecimalFlagsOf | Assets/Scripts/MOS6502.cs:325-335 | decimal ADC sets Z and N from the byte the unadjusted nibble sums pack to, V by the sign rule on that byte, C from the tens sum, and keeps I and D |
| Alu.AdcDecimalUnadjusted | Assets/Scripts/MOS6502.cs:325-333 | that unadjusted byte is the plain sum with carry, plus $10 when the low digits add up to 10..15, modulo 256 |
| Alu.AdcDecimalFlags | Assets/Scripts/MOS6502.cs:320-335 | for all operands, decimal ADC's Z, N and V come from that byte and not from the adjusted result; I and D are kept |
| Alu.AdcDecimalFlagsAsBinary | Assets/Scripts/MOS6502.cs:322-353 | when the low digits do not add up to 10..15, decimal ADC's Z, N and V are exactly binary ADC's |
| Alu.DecimalAdcExample | Assets/Scripts/MOS6502.cs:320-345 | $79 + $00 with carry in decimal mode gives $80 with C clear, and V and N set from the binary sum |
| Alu.CompareMeaning | Assets/Scripts/MOS6502.cs:400-405 | a compare sets Z exactly when the register equals the operand, C exactly when it is at least the operand, so C without Z means greater, and keeps V, I and D |
| Alu.RolThenRor | Assets/Scripts/MOS6502.cs:497-520 | ROR undoes ROL: the byte and the carry come back |
| Alu.RorThenRol | Assets/Scripts/MOS6502.cs:497-520 | ROL undoes ROR: the byte and the carry come back |
| Alu.IncDecRoundTrip | Assets/Scripts/MOS6502.cs:411-439 | INC and DEC undo each other, wrap at $FF and $00, and leave C alone |
| Alu.ShiftMeaning | Assets/Scripts/MOS6502.cs:370-480 | ASL doubles the byte with the lost top bit in C; LSR halves it with the lost bottom bit in C |
| SoundChip.RatePeriod | Assets/Scripts/SID.cs:59 | every envelope rate period lies between 9 and 31251 cycles |
| SoundChip.SustainLevel | Assets/Scripts/SID.cs:60 | the sustain level of nibble n is n repeated in both halves of the byte |
| SoundChip.ExpTarget | Assets/Scripts/SID.cs:61-64 | the exponential-decay divider lies in 1..30, and is 1 exactly at volume 0 and from $5D upwards |
| SoundChip.NoiseShiftBits | Assets/Scripts/SID.cs:145-150 | one noise shift keeps the register 23-bit, moves bits 0..21 up by one, and feeds in bit 22 xor bit 17 |
| SoundChip.GateControlsRelease | Assets/Scripts/SID.cs:68-74 | a clear gate bit ends the clock in Release; a set one never does, and keeps Decay in Decay |
| SoundChip.RateCounter | Assets/Scripts/SID.cs:76-124 | the rate counter stays 15-bit and restarts exactly when it reaches the current phase's rate period |
| SoundChip.AttackRises | Assets/Scripts/SID.cs:82-93 | in Attack, at the end of a rate period the volume rises by one and the counter restarts, handing over to Decay on reaching $FF |
| SoundChip.EnvelopeFloors | Assets/Scripts/SID.cs:94-127 | in Decay a clock lowers the volume by at most one, and only while it is above the sustain level; in Release by at most one, and only while it is above zero |
| SoundChip.PhaseAndTestBit | Assets/Scripts/SID.cs:129-138 | the phase stays 24-bit; with the test bit set the phase is held at 0 and the noise register at its seed, otherwise the phase advances by the frequency modulo 2^24 |
| SoundChip.NoiseShiftsOnEdge | Assets/Scripts/SID.cs:140-152 | the noise register stays 23-bit and shifts only on a rising edge of phase bit 19 with the noise waveform selected |
| SoundChip.SyncEdge | Assets/Scripts/SID.cs:154 | the sync flag is set exactly on a rising edge of phase bit 23 |
| SoundChip.ClockKeepsInv | Assets/Scripts/SID.cs:66-155 | a clock keeps the 24-bit phase, 23-bit noise and 15-bit counter ranges |
| SoundChip.PhaseReset | Assets/Scripts/SID.cs:157-160 | the phase restarts from zero and nothing else of the voice changes |
| SoundChip.Triangle | Assets/Scripts/SID.cs:215-219 | the triangle output is a 16-bit value |
| SoundChip.TriangleFolds | Assets/Scripts/SID.cs:215-219 | without ring modulation the triangle is the phase reflected at its midpoint: rising over the first half period, falling over the second |
| SoundChip.Sawtooth | Assets/Scripts/SID.cs:221-224 | the sawtooth of a 24-bit phase is a 16-bit value |
| SoundChip.Pulse | Assets/Scripts/SID.cs:226-229 | the pulse is either 0 or full scale |
| SoundChip.Noise | Assets/Scripts/SID.cs:231-236 | the noise output uses only bits 8..15 |
| SoundChip.Combined | Assets/Scripts/SID.cs:180-206 | a combined waveform is clamped to 16 bits |
| SoundChip.WaveOutput | Assets/Scripts/SID.cs:167-210 | the selected waveform of a 24-bit phase is a 16-bit value |
| SoundChip.SyncRing | Assets/Scripts/SID.cs:258-263 | each voice's sync target and sync source are the two other voices, and target and source are inverse to each other |
| SoundChip.LoadRegisters | Assets/Scripts/SID.cs:281-289 | a voice's frequency, pulse width, control, AD and SR come from its seven bytes at $D400+7i, low byte first, and nothing else of it changes |
| SoundChip.ClockAll | Assets/Scripts/SID.cs:305-306 | every voice is clocked once |
| SoundChip.IterateAdditive | Assets/Scripts/SID.cs:303-354 | m steps then n steps are m+n steps |
| SoundChip.RunAdditive | Assets/Scripts/SID.cs:303-354 | running m cycles then n cycles is running m+n cycles |
| SoundChip.CycleToKeepsInv | Assets/Scripts/SID.cs:303-311 | the clocks and any prefix of the sync loop keep every voice's ranges |
| SoundChip.CycleKeepsInv | Assets/Scripts/SID.cs:303-311 | one SID cycle keeps every voice's ranges |
| SoundChip.RunKeepsInv | Assets/Scripts/SID.cs:303-354 | any number of cycles keeps every voice's ranges |
| SoundChip.SyncStepsSpareUnsynced | Assets/Scripts/SID.cs:307-311 | a voice whose sync bit is clear is never reset by hard sync: it is just clocked |
| SoundChip.AdvanceWithoutSync | Assets/Scripts/SID.cs:129-138 | a voice with neither the sync nor the test bit set advances its phase by its frequency modulo 2^24 each cycle |
| SoundChip.LoadAll | Assets/Scripts/SID.cs:281-289 | loading the register snapshot keeps the voices' ranges |
| SoundChip.ClockKeepsRegisters | Assets/Scripts/SID.cs:66-155 | a clock never changes a voice's frequency, pulse width, control, AD or SR |
| SoundChip.CycleToKeepsRegisters | Assets/Scripts/SID.cs:303-311 | the clocks and any prefix of the sync loop leave the registers alone |
| SoundChip.CycleKeepsRegisters | Assets/Scripts/SID.cs:303-311 | one SID cycle leaves every voice's registers alone |
| SoundChip.RunKeepsRegisters | Assets/Scripts/SID.cs:303-354 | any number of cycles leaves every voice's registers alone |
| SoundChip.LoadIdempotent | Assets/Scripts/SID.cs:281-289 | reloading the same snapshot after running changes nothing |
| SoundChip.BufferSplits | Assets/Scripts/SID.cs:269-361 | rendering a and then b cycles with the same registers is rendering a+b cycles, so flushing on a SID write does not change how the voices evolve |
| SoundChip.InitialVoice | Assets/Scripts/SID.cs:50-57 | a new voice is in Release at volume 0 with the noise seed, and in range |
| SoundChip.SidChannel.constructor | Assets/Scripts/SID.cs:42-57 | a new channel is the initial voice with no sync neighbours |
| SoundChip.SidChannel.Clock | Assets/Scripts/SID.cs:66-155 | the channel's new state is the clock step of its old state; the sync links stay |
| SoundChip.SidChannel.GateAndCount | Assets/Scripts/SID.cs:68-77 | the gate test and the 15-bit counter increment, nothing else |
| SoundChip.SidChannel.StepEnvelope | Assets/Scripts/SID.cs:78-127 | the envelope switch does what the envelope step says |
| SoundChip.SidChannel.StepOscillator | Assets/Scripts/SID.cs:129-154 | the phase, test bit, noise and sync flag update as the oscillator step says |
| SoundChip.SidChannel.Load | Assets/Scripts/SID.cs:283-288 | the channel's registers are loaded from its seven bytes and the rest stays |
| SoundChip.SidChannel.ResetAccumulator | Assets/Scripts/SID.cs:157-160 | the phase restarts from zero and the rest stays |
| SoundChip.Sid.constructor | Assets/Scripts/SID.cs:253-264 | three fresh channels in the initial state, linked into the sync ring |
| SoundChip.Sid.Link | Assets/Scripts/SID.cs:258-263 | the source now hard-syncs the target, the target's sync source is the source, and nothing else changes |
| SoundChip.Sid.BufferSamples | Assets/Scripts/SID.cs:269-311 | no cycles leave the voices alone; otherwise they are loaded from the snapshot and run that many cycles; the ring is kept |
| SoundChip.Sid.LoadVoices | Assets/Scripts/SID.cs:281-289 | all three voices are loaded from the snapshot |
| SoundChip.Sid.LoadChannel | Assets/Scripts/SID.cs:283-288 | voice i is loaded and the other two are unchanged |
| SoundChip.Sid.Cycle | Assets/Scripts/SID.cs:303-311 | one SID cycle: every voice clocked, then the hard syncs of voices 0, 1, 2 in turn |
| SoundChip.Sid.ClockChannels | Assets/Scripts/SID.cs:305-306 | every voice clocked once |
| SoundChip.Sid.ClockChannel | Assets/Scripts/SID.cs:306 | voice j clocked and the other two unchanged |
| SoundChip.Sid.SyncChannels | Assets/Scripts/SID.cs:307-311 | the sync loop completes the SID cycle |
| SoundChip.Sid.SyncFrom | Assets/Scripts/SID.cs:309-310 | voice j restarts its target when its phase wrapped and the target's sync bit is set |
| Disk.ZonesMatchTable | Assets/Scripts/DiskImage.cs:65-71 | the D64 sectors-per-track table is the four speed zones: 21 sectors on tracks 1-17, 19 on 18-24, 18 on 25-30, 17 on 31-35 |
| Disk.SectorCount | Assets/Scripts/DiskImage.cs:241-262 | no track has more than the table's 40 sector columns |
| Disk.SectorOffset | Assets/Scripts/DiskImage.cs:98-101 | a sector lookup succeeds exactly when the track and sector are inside the 81 x 40 table; outside it the source's array access throws |
| Disk.SectorsBeforeGrows | Assets/Scripts/DiskImage.cs:237-262 | the count of sectors in front of a track never decreases, and grows by a track's sectors past it |
| Disk.D64Before | Assets/Scripts/DiskImage.cs:241-251 | the D64 sectors in front of track n number 21 per track through track 17, then 357 plus 19 per track through 24, 490 plus 18 per track through 30, and 598 plus 17 per track after that |
| Disk.D64Size | Assets/Scripts/DiskImage.cs:86-92 | the 35 D64 tracks hold 683 sectors, 174848 bytes, and tracks 36-80 have none |
| Disk.D81Before | Assets/Scripts/DiskImage.cs:252-262 | every D81 track before track n holds 40 sectors |
| Disk.D81Layout | Assets/Scripts/DiskImage.cs:252-262 | D81 sector s of track n is at 256 x (40 x (n-1) + s), and the 80 tracks fill the 819200-byte image |
| Disk.D64Layout | Assets/Scripts/DiskImage.cs:241-251 | D64 sector s of track n is at 256 bytes times the number of sectors in front of it |
| Disk.OffsetsIncrease | Assets/Scripts/DiskImage.cs:237-262 | sectors laid out later start at least 256 bytes later, so no two sectors overlap |
| Disk.SectorInsideImage | Assets/Scripts/DiskImage.cs:237-262 | every sector of the layout lies inside an image of its type's size |
| Disk.ClosedReadIsInert | Assets/Scripts/DiskImage.cs:185-186 | reading a closed handle gives 0 and leaves it as it was |
| Disk.OffsetStaysInSector | Assets/Scripts/DiskImage.cs:200-221 | while a handle stays open its offset stays within data bytes 2..255 of its sector |
| Disk.ChainFollowing | Assets/Scripts/DiskImage.cs:200-221 | a read returns the byte at the handle; at the end of a non-last sector the handle follows the link to offset 2 of the next sector, otherwise it moves on by one; in the last sector it closes exactly after the byte at the offset stored in byte 1 |
| Disk.LastSectorContents | Assets/Scripts/DiskImage.cs:203-211 | reading the last sector from offset o yields its bytes from o up to the stored last offset, then the handle closes |
| Disk.NameMatchMeaning | Assets/Scripts/DiskImage.cs:152-162 | the name comparison succeeds exactly when the entry's name starts with the requested name, and a failure means it does not |
| Disk.ScanEntriesMeaning | Assets/Scripts/DiskImage.cs:145-173 | the scan of a directory sector hits the first matching program entry, naming the track and sector stored in it; no hit means no entry matches |
| Disk.FindFileFuel | Assets/Scripts/DiskImage.cs:142-178 | more fuel never changes an answer the directory walk has already reached |
| Disk.FoundHere | Assets/Scripts/DiskImage.cs:164-171 | a hit in a sector comes from a matching program entry of a sector in the table |
| Disk.FoundIsMatchingEntry | Assets/Scripts/DiskImage.cs:142-178 | every found file comes from a matching program entry of some directory sector |
| Disk.SlotsFromTwo | Assets/Scripts/DiskImage.cs:145 | directory entry slots start at byte 2 |
| Disk.NoHitIsNoMatch | Assets/Scripts/DiskImage.cs:145-173 | a sector scan with no hit has no matching entry |
| Disk.HitIsFirstMatch | Assets/Scripts/DiskImage.cs:145-173 | a hit is the first matching entry of the sector |
| Disk.ChainStep | Assets/Scripts/DiskImage.cs:175-177 | a sector with no hit hands the search, and the chain, over to the sector its link bytes name |
| Disk.FindStep | Assets/Scripts/DiskImage.cs:175-177 | a sector with no hit hands the search over to the sector its link bytes name |
| Disk.DirChainStep | Assets/Scripts/DiskImage.cs:175-177 | the directory chain is this sector followed by the chain from its link |
| Disk.MissingStep | Assets/Scripts/DiskImage.cs:142-180 | a missing file was not in this sector, and is missing from the rest of the chain |
| Disk.FirstMatchPrepend | Assets/Scripts/DiskImage.cs:142-178 | a sector with no match in front of a chain keeps the chain's first match |
| Disk.ChainEndedPrepend | Assets/Scripts/DiskImage.cs:142 | a sector linking to a chain that ends at track 0 gives a chain that ends there too |
| Disk.NoMatchPrepend | Assets/Scripts/DiskImage.cs:142-178 | a sector with no match in front of a chain with no match gives a chain with no match |
| Disk.FoundStep | Assets/Scripts/DiskImage.cs:142-178 | a found file was either hit in this sector or found further down the chain |
| Disk.FoundLater | Assets/Scripts/DiskImage.cs:175-177 | a file found past a sector without a hit is the one found from its link |
| Disk.FoundPassedOn | Assets/Scripts/DiskImage.cs:175-177 | the first match of the chain from the link is the first match of the whole chain |
| Disk.DirChainHead | Assets/Scripts/DiskImage.cs:144 | the chain starts with the current sector |
| Disk.FirstMatchAtHead | Assets/Scripts/DiskImage.cs:164-171 | a match in the first sector is the first match of the chain |
| Disk.FoundOnChain | Assets/Scripts/DiskImage.cs:142-178 | a found file is the first match along the directory chain |
| Disk.MissingOnChain | Assets/Scripts/DiskImage.cs:142-180 | a missing file matches no entry on the directory chain |
| Disk.MissingEndsChain | Assets/Scripts/DiskImage.cs:142-180 | a missing file means the chain was walked to its link to track 0 |
| Disk.OpenResult | Assets/Scripts/DiskImage.cs:139-180 | a handle is returned exactly when the file was found, at offset 2 of the sector its entry names |
| Disk.OpenResultMeaning | Assets/Scripts/DiskImage.cs:122-181 | the handle is at offset 2 of the sector named by the first matching program entry on the directory chain, which is an entry of the image; "missing" means the whole chain up to its link to track 0 has no match |
| Disk.FileHandle.constructor | Assets/Scripts/DiskImage.cs:166-170 | a new handle is at offset 2 of the given track and sector |
| Disk.Rows | Assets/Scripts/DiskImage.cs:76 | the contents of the 81 x 40 table, row by row |
| Disk.MakeSectorTable | Assets/Scripts/DiskImage.cs:237-263 | every entry of the fresh table is the layout offset of its track and sector (0 where the image type has no such sector) |
| Disk.FillTrack | Assets/Scripts/DiskImage.cs:245-249 | the sectors of one track get consecutive offsets 256 apart, and no other entry changes |
| Disk.DiskImage.constructor | Assets/Scripts/DiskImage.cs:79-96 | an image of 819200 bytes is a D81 and any other a D64; with no asset it is 174848 zero bytes as a D64; the sector table holds the layout |
| Disk.DiskImage.GetSectorOffset | Assets/Scripts/DiskImage.cs:98-101 | the table lookup is the layout offset, and fails where the index is out of range |
| Disk.DiskImage.OpenFile | Assets/Scripts/DiskImage.cs:122-181 | the search result and a fresh handle exactly when the file was found, at the position the directory search gives |
| Disk.DiskImage.ReadByte | Assets/Scripts/DiskImage.cs:183-224 | the byte read and the new handle are the read step of the old handle; failure exactly where the source's array access throws |
| IoRegisters.KeyScanBits | Assets/Scripts/Emulator.cs:265-275 | bit j of the $DC01 scan is set exactly when bit j is set in every keyboard row whose column bit is clear in $DC00 |
| IoRegisters.AllOnesBits | Assets/Scripts/Emulator.cs:268 | the scan starts from a byte with all eight bits set |
| IoRegisters.RasterHighBits | Assets/Scripts/Emulator.cs:276-280 | the $D011 read has bit 7 set exactly when the line counter is at least 256, and keeps bits 0-6 of the stored byte |
| IoRegisters.TimerStatusBits | Assets/Scripts/Emulator.cs:296-308 | the $DC0D read has bit 0 equal to the timer-IRQ enable, bit 7 equal to the timer-IRQ flag, and bits 1-6 clear |
| IoRegisters.HookRead | Assets/Scripts/Emulator.cs:258-314 | the hook answers exactly the seven handled addresses; only a $DC0D read changes anything, and it clears only the timer-IRQ flag |
| IoRegisters.TimerAcknowledge | Assets/Scripts/Emulator.cs:296-308 | reading $DC0D reports enable and pending flag, then the flag is clear and the enable is kept |
| IoRegisters.RasterReadBack | Assets/Scripts/Emulator.cs:276-285 | for any line below 512, bit 7 of $D011 times 256 plus $D012 gives back the line counter |
| IoRegisters.SidRegisters | Assets/Scripts/Emulator.cs:234-237 | the SID is given the 25 registers $D400-$D418 |
| IoRegisters.TimerEnableWrite | Assets/Scripts/Emulator.cs:239-245 | a $DC0D write sets the enable when value AND $81 is $81, clears it when it is $01, keeps it otherwise, and changes nothing else |
| IoRegisters.MaskBits81 | Assets/Scripts/Emulator.cs:241-243 | value AND $81 is made of bit 7 and bit 0 of the value |
| IoRegisters.SidFlushBeforeStore | Assets/Scripts/Emulator.cs:233-238 | a SID-register write first renders the cycles since the last flush with the registers as they were, and moves the audio mark to now |
| IoRegisters.TimerReload | Assets/Scripts/Emulator.cs:246-250 | a $DC0E write with bit 4 set loads the timer with the little-endian latch $DC04/$DC05 |
| IoRegisters.RasterTarget | Assets/Scripts/Emulator.cs:215 | the raster-compare line is below 512 |
| IoRegisters.RasterCompare | Assets/Scripts/Emulator.cs:210-218 | the line counter becomes the line; the raster flag is set exactly when it was set or $D01A bit 0 is set and the line is the compare line |
| IoRegisters.TimerCountdown | Assets/Scripts/Emulator.cs:219-228 | a running timer loses 63 per line and stops at 0; the timer-IRQ flag rises exactly when the enabled timer reaches 0 on this line |
| IoRegisters.TimerExpires | Assets/Scripts/Emulator.cs:219-228 | over n lines a running timer t becomes max(0, t - 63n), and the flag is raised exactly when enabled and 0 < t <= 63n |
| IoRegisters.IoHooks.constructor | Assets/Scripts/Emulator.cs:40-48 | the latches start at zero and cleared, with three silent SID voices |
| IoRegisters.IoHooks.HandleIORead | Assets/Scripts/Emulator.cs:258-314 | the value, the handled flag and the new latches are those of HookRead; an unhandled read returns 0 |
| IoRegisters.IoHooks.PeekIORead | Assets/Scripts/Emulator.cs:260-295 | every handled address other than $DC0D returns HookRead's value and changes nothing |
| IoRegisters.IoHooks.HandleIOWrite | Assets/Scripts/Emulator.cs:231-256 | the new latches are HookWrite's; the SID voices are rendered with the old registers on a SID write and unchanged otherwise |
| IoRegisters.IoHooks.FlushAudio | Assets/Scripts/Emulator.cs:236-237 | the voices advance by the cycles since the audio mark, and the mark moves to now; nothing else changes |
| IoRegisters.IoHooks.UpdateLineCounterAndIRQ | Assets/Scripts/Emulator.cs:210-229 | the latches become LineUpdate of the old ones; the input ports are unchanged |
| Memory.BusReadIO | Assets/Scripts/RAM64K.cs:73-89 | an I/O-port read never changes RAM or the I/O shadow; only the state behind the read hook may change |
| Memory.BusRead | Assets/Scripts/RAM64K.cs:60-66 | a banked read never changes RAM or the I/O shadow |
| Memory.BusRead16 | Assets/Scripts/RAM64K.cs:91-96 | a 16-bit read never changes RAM or the I/O shadow |
| Memory.BusWriteIO | Assets/Scripts/RAM64K.cs:119-130 | an I/O-port write keeps the bus valid |
| Memory.BusWrite | Assets/Scripts/RAM64K.cs:106-112 | a banked write keeps the bus valid |
| Memory.BusWrite16 | Assets/Scripts/RAM64K.cs:132-136 | a 16-bit write keeps the bus valid |
| Memory.AllRamWhenBankedOut | Assets/Scripts/RAM64K.cs:60-112 | with bits 0-1 of $01 clear, every read returns the RAM byte and changes nothing, and every write stores into RAM only |
| Memory.IoWriteSparesRam | Assets/Scripts/RAM64K.cs:106-130 | a write to visible I/O changes exactly one shadow byte (the addressed one, to the value) and no RAM byte |
| Memory.HookBeforeStore | Assets/Scripts/RAM64K.cs:119-127 | the write hook sees the shadow as it was before the store |
| Memory.WriteReadBack | Assets/Scripts/RAM64K.cs:60-130 | a write followed by a read of the same address gives the value back, unless a registered hook answers that I/O read |
| Memory.RamWriteIsLocal | Assets/Scripts/RAM64K.cs:60-117 | a RAM write to any address but $01 leaves every other address's read value as it was |
| Memory.Word16RoundTrip | Assets/Scripts/RAM64K.cs:91-136 | `Write16` then `Read16` at the same address (both bytes outside visible I/O) gives the word back |
| Memory.Read16Wraps | Assets/Scripts/RAM64K.cs:91-96 | `Read16($FFFF)` takes its high byte from $0000 (the `++address` wraps) |
| Memory.Write16Wraps | Assets/Scripts/RAM64K.cs:132-136 | `Write16($FFFF)` stores the low byte at $FFFF and the high byte at $0000 |
| Memory.BlockCount | Assets/Scripts/RAM64K.cs:98-104 | the count handed to the block copy never reaches past $FFFF or past the buffer |
| Memory.BlockCountFaults | Assets/Scripts/RAM64K.cs:98-104 | the block copy throws exactly on a negative size, or a size past the buffer that the end of memory does not cap |
| Memory.LoadClamp | Assets/Scripts/RAM64K.cs:138-151 | `Load` never writes past $FFFF, never copies more than the data holds, and copies all of it when it fits |
| Memory.Ram64K.constructor | Assets/Scripts/RAM64K.cs:43-52 | 64 KB of RAM and a 4 KB I/O shadow, all zero, the hooks registered |
| Memory.Ram64K.Read | Assets/Scripts/RAM64K.cs:60-66 | the read value and the new memory state are those of the banked read `BusRead` |
| Memory.Ram64K.ReadRAM | Assets/Scripts/RAM64K.cs:68-71 | the value is the RAM byte, whatever the banking |
| Memory.Ram64K.ReadIO | Assets/Scripts/RAM64K.cs:73-89 | the read value and new state are those of `BusReadIO` (hook first when asked and registered, else the shadow; RAM outside $D000-$DFFF) |
| Memory.Ram64K.PeekIO | Assets/Scripts/RAM64K.cs:73-89 | an I/O read of any address but $DC0D changes no state |
| Memory.Ram64K.Read16 | Assets/Scripts/RAM64K.cs:91-96 | the word and the new state are those of `BusRead16` |
| Memory.Ram64K.ReadBlock | Assets/Scripts/RAM64K.cs:98-104 | the buffer's first `BlockCount` bytes become the RAM bytes from the address and the rest stay; a throwing copy changes nothing |
| Memory.Ram64K.Write | Assets/Scripts/RAM64K.cs:106-112 | the new memory state is `BusWrite` of the old one |
| Memory.Ram64K.WriteRAM | Assets/Scripts/RAM64K.cs:114-117 | exactly the addressed RAM byte changes |
| Memory.Ram64K.WriteIO | Assets/Scripts/RAM64K.cs:119-130 | the new state is `BusWriteIO` of the old; a write to $D400-$D418 first renders the sound chip up to the current cycle, any other leaves the voices alone |
| Memory.Ram64K.WriteDevice | Assets/Scripts/RAM64K.cs:121-127 | the hook runs, then the shadow byte is stored |
| Memory.Ram64K.StoreIO | Assets/Scripts/RAM64K.cs:126 | exactly the addressed shadow byte changes |
| Memory.Ram64K.Write16 | Assets/Scripts/RAM64K.cs:132-136 | the new state is `BusWrite16` of the old (low byte, then high byte at the wrapped next address) |
| Memory.Ram64K.Load | Assets/Scripts/RAM64K.cs:138-151 | RAM becomes the old RAM with the first `LoadCount` bytes of the data spliced in at the address |
| Kernal.ReadBytes | Assets/Scripts/Emulator.cs:331-333 | n banked reads from an address upwards give n bytes and never change RAM or the I/O shadow |
| Kernal.NamePrefix | Assets/Scripts/Emulator.cs:323-329 | the "@0" test reads memory without changing RAM or the I/O shadow |
| Kernal.SetNameSpec | Assets/Scripts/Emulator.cs:319-334 | reading the name never changes RAM or the I/O shadow |
| Kernal.RamBytes | Assets/Scripts/Emulator.cs:332-333 | the RAM image of an n-byte name has length n |
| Kernal.RamRangeCases | Assets/Scripts/RAM64K.cs:60-66 | with the I/O area banked out, or a range below $D000, no byte of the range is an I/O read |
| Kernal.ReadBytesFromRam | Assets/Scripts/Emulator.cs:331-333 | a name outside the visible I/O area is copied straight from RAM and the bus state is unchanged |
| Kernal.SetNameFromRam | Assets/Scripts/Emulator.cs:319-334 | X/Y pointing at "@0:NAME" with A = 3 + length records NAME; any other name is recorded as it stands |
| Kernal.NamePrefixFromRam | Assets/Scripts/Emulator.cs:323-329 | a name starting "@0" moves 3 bytes on and its length drops by 3 modulo 256; otherwise address and length stay |
| Kernal.RamRead | Assets/Scripts/RAM64K.cs:60-66 | a read outside the visible I/O area returns the RAM byte and changes nothing |
| Kernal.SetNamTrap | Assets/Scripts/Emulator.cs:319-334 | SETNAM leaves the bus valid |
| Kernal.ChkInTrap | Assets/Scripts/Emulator.cs:336-344 | CHKIN leaves the bus valid |
| Kernal.SetStatus | Assets/Scripts/Emulator.cs:352 | writing ST keeps the bus valid |
| Kernal.StatusIsBankedWrite | Assets/Scripts/Emulator.cs:352-356 | the banked write of ST at $90 stores to RAM and runs no hook, whatever the banking |
| Kernal.ChrInTrap | Assets/Scripts/Emulator.cs:346-358 | CHRIN leaves the bus valid |
| Kernal.TrapSpec | Assets/Scripts/Emulator.cs:316-388 | every trap leaves the bus valid |
| Kernal.ChrInStatus | Assets/Scripts/Emulator.cs:346-358 | CHRIN changes only ST in RAM; without a handle ST is $42; on a closed file ST is $40 and A stays; on an open file A is the next byte and ST is 0 exactly while the file stays open |
| Kernal.ChkInOpensEntry | Assets/Scripts/Emulator.cs:336-344 | an opened handle points at offset 2 of the track/sector of the first matching program entry on the directory chain |
| Kernal.ChkInFrame | Assets/Scripts/Emulator.cs:336-344 | CHKIN changes neither memory nor A nor the file name |
| Kernal.ChkInMissing | Assets/Scripts/Emulator.cs:339-343 | CHKIN ends normally without a handle only when the directory chain ran out without a match |
| Kernal.KernalTraps.constructor | Assets/Scripts/Emulator.cs:51-53 | no name and no handle at start |
| Kernal.KernalTraps.SetName | Assets/Scripts/Emulator.cs:319-334 | the new state is SetNamTrap's; the handle is kept |
| Kernal.KernalTraps.OpenForRead | Assets/Scripts/Emulator.cs:336-344 | the new state and completion are ChkInTrap's |
| Kernal.KernalTraps.ReadChar | Assets/Scripts/Emulator.cs:346-358 | the new state, A and completion are ChrInTrap's |
| Kernal.KernalTraps.DropHandle | Assets/Scripts/Emulator.cs:360-381 | the handle is dropped; CHKOUT's message throws on a name shorter than 2 bytes |
| Kernal.KernalTraps.HandleKernalTrap | Assets/Scripts/Emulator.cs:316-388 | the new state, A and completion are TrapSpec's for every address |
| Kernal.NameStart | Assets/Scripts/Emulator.cs:323-329 | the start address, length and bus after the "@0" test are NamePrefix's |
| Kernal.NamePrefixSteps | Assets/Scripts/Emulator.cs:325-329 | NamePrefix is the result of its one or two reads |
| Kernal.ReadName | Assets/Scripts/Emulator.cs:331-333 | the copied name and the bus are ReadBytes' |
| Cpu.Pushed | Assets/Scripts/MOS6502.cs:230-234 | the stack store at $0100 OR SP keeps the bus valid |
| Cpu.Pushed16 | Assets/Scripts/MOS6502.cs:235-239 | the two stack stores keep the bus valid |
| Cpu.Popped | Assets/Scripts/MOS6502.cs:241-245 | the stack read keeps the bus valid |
| Cpu.Popped16 | Assets/Scripts/MOS6502.cs:246-251 | the two stack reads keep the bus valid |
| Cpu.EffectiveAddress | Assets/Scripts/MOS6502.cs:266-307 | computing an operand address keeps the bus valid |
| Cpu.Indexed | Assets/Scripts/MOS6502.cs:280-295 | indexing keeps the bus valid |
| Cpu.IndexedAbsolute | Assets/Scripts/MOS6502.cs:280-295 | AbsoluteX/AbsoluteY keep the bus valid |
| Cpu.PointerAt | Assets/Scripts/MOS6502.cs:298-302 | the zero-page pointer read keeps the bus valid |
| Cpu.IndexedIndirect | Assets/Scripts/MOS6502.cs:296-299 | IndirectX keeps the bus valid |
| Cpu.IndirectIndexed | Assets/Scripts/MOS6502.cs:300-307 | IndirectY keeps the bus valid |
| Cpu.OperandOf | Assets/Scripts/MOS6502.cs:355-358 | fetching an operand keeps the bus valid |
| Cpu.LoadStep | Assets/Scripts/MOS6502.cs:654-693 | a reading instruction keeps the bus valid |
| Cpu.ModifyStep | Assets/Scripts/MOS6502.cs:377-381 | a read-modify-write keeps the bus valid |
| Cpu.ReadModify | Assets/Scripts/MOS6502.cs:377-381 | the read half of a read-modify-write keeps the bus valid |
| Cpu.WriteBack | Assets/Scripts/MOS6502.cs:380 | the write half keeps the bus valid |
| Cpu.StoreStep | Assets/Scripts/MOS6502.cs:1424-1494 | a store keeps the bus valid |
| Cpu.InterruptEntry | Assets/Scripts/MOS6502.cs:829-832 | the interrupt entry sequence keeps the bus valid |
| Cpu.InterruptEntryOf | Assets/Scripts/MOS6502.cs:829-832 | the entry is the pushes, then I set and PC from the vector |
| Cpu.BrkStep | Assets/Scripts/MOS6502.cs:824-834 | BRK keeps the bus valid |
| Cpu.PushStep | Assets/Scripts/MOS6502.cs:1264-1276 | PHA/PHP keep the bus valid |
| Cpu.PlaStep | Assets/Scripts/MOS6502.cs:1278-1284 | PLA keeps the bus valid |
| Cpu.PlpStep | Assets/Scripts/MOS6502.cs:1286-1291 | PLP keeps the bus valid |
| Cpu.JmpIndirectStep | Assets/Scripts/MOS6502.cs:1075-1084 | JMP (ind) keeps the bus valid |
| Cpu.JsrStep | Assets/Scripts/MOS6502.cs:1086-1091 | JSR keeps the bus valid |
| Cpu.RtsStep | Assets/Scripts/MOS6502.cs:1354-1359 | RTS keeps the bus valid |
| Cpu.RtiStep | Assets/Scripts/MOS6502.cs:1347-1352 | RTI keeps the bus valid |
| Cpu.Perform | Assets/Scripts/MOS6502.cs:651-1606 | every instruction keeps the bus valid |
| Cpu.PerformMemory | Assets/Scripts/MOS6502.cs:651-1606 | every memory instruction keeps the bus valid |
| Cpu.PerformStack | Assets/Scripts/MOS6502.cs:1264-1359 | every stack instruction keeps the bus valid |
| Cpu.PerformPushPull | Assets/Scripts/MOS6502.cs:1264-1291 | PHA, PHP, PLA and PLP keep the bus valid |
| Cpu.PerformCallReturn | Assets/Scripts/MOS6502.cs:824-1359 | BRK, JSR, RTI and RTS keep the bus valid |
| Cpu.PerformRegisters | Assets/Scripts/MOS6502.cs:1495-1540 | the register-only instructions keep the bus valid |
| Cpu.Execute | Assets/Scripts/MOS6502.cs:651-1606 | the switch keeps the bus valid |
| Cpu.ResetStep | Assets/Scripts/MOS6502.cs:593-606 | the reset branch keeps the bus valid |
| Cpu.Interrupt | Assets/Scripts/MOS6502.cs:615-636 | interrupt entry keeps the bus valid |
| Cpu.FetchOperands | Assets/Scripts/MOS6502.cs:648-649 | the operand fetch keeps the bus valid |
| Cpu.ProcessSpec | Assets/Scripts/MOS6502.cs:591-1608 | Process keeps the machine valid |
| Cpu.PreemptStep | Assets/Scripts/MOS6502.cs:593-636 | the reset, jam, NMI and IRQ branches keep the bus valid |
| Cpu.InstructionStep | Assets/Scripts/MOS6502.cs:638-651 | the instruction branch keeps the machine valid |
| Cpu.NmiStep | Assets/Scripts/MOS6502.cs:615-625 | the NMI branch keeps the bus valid |
| Cpu.IrqStep | Assets/Scripts/MOS6502.cs:626-636 | the IRQ branch keeps the bus valid |
| Cpu.Fetched | Assets/Scripts/MOS6502.cs:638 | the opcode fetch keeps the bus valid |
| Cpu.ExecuteFetched | Assets/Scripts/MOS6502.cs:648-651 | operand fetch and switch keep the bus valid |
| Cpu.TrapPath | Assets/Scripts/MOS6502.cs:642-646 | the trap path keeps the machine valid |
| Cpu.PreemptedSpec | Assets/Scripts/MOS6502.cs:593-636 | with a reset, a jam, an NMI or an unmasked IRQ pending, Process runs no instruction and ends normally with the files unchanged |
| Cpu.InstructionSpec | Assets/Scripts/MOS6502.cs:638-651 | with nothing pending, Process is the fetch, the trap when due, and one instruction |
| Cpu.Mos6502.State | Assets/Scripts/MOS6502.cs:60-168 | the processor's registers and its memory form a valid machine |
| Cpu.Mos6502.constructor | Assets/Scripts/MOS6502.cs:176-190 | all registers zero and a reset pending, on the given memory and trap handler |
| Cpu.Mos6502.SetRegisters | Assets/Scripts/MOS6502.cs:167 | only the registers change, to the given ones |
| Cpu.Mos6502.SetNMI | Assets/Scripts/MOS6502.cs:570-573 | only the NMI line changes, to pending |
| Cpu.Mos6502.SetIRQ | Assets/Scripts/Emulator.cs:202 | only the IRQ line changes, to the given level |
| Cpu.Mos6502.Reset | Assets/Scripts/MOS6502.cs:583-586 | only the reset line changes, to pending |
| Cpu.Mos6502.Jump | Assets/Scripts/MOS6502.cs:214-217 | PC becomes the 16-bit vector read at the address; nothing else in the registers changes |
| Cpu.Mos6502.Push | Assets/Scripts/MOS6502.cs:230-234 | the new machine is Pushed of the old |
| Cpu.Mos6502.Push16 | Assets/Scripts/MOS6502.cs:235-239 | the new machine is Pushed16 of the old |
| Cpu.Mos6502.Pop | Assets/Scripts/MOS6502.cs:241-245 | the value and new machine are Popped's |
| Cpu.Mos6502.Pop16 | Assets/Scripts/MOS6502.cs:246-251 | the value and new machine are Popped16's |
| Cpu.Mos6502.CheckPageBoundaries | Assets/Scripts/MOS6502.cs:253-257 | one cycle more exactly when the two addresses lie in different pages |
| Cpu.Mos6502.Index | Assets/Scripts/MOS6502.cs:280-295 | the address and new machine are Indexed's |
| Cpu.Mos6502.AbsoluteIndexed | Assets/Scripts/MOS6502.cs:280-295 | the address and new machine are IndexedAbsolute's |
| Cpu.Mos6502.ReadPointer | Assets/Scripts/MOS6502.cs:298-302 | the pointer and new machine are PointerAt's |
| Cpu.Mos6502.IndirectX | Assets/Scripts/MOS6502.cs:296-299 | the address and new machine are IndexedIndirect's |
| Cpu.Mos6502.IndirectY | Assets/Scripts/MOS6502.cs:300-307 | the address and new machine are IndirectIndexed's |
| Cpu.Mos6502.Resolve | Assets/Scripts/MOS6502.cs:266-307 | the address and new machine are EffectiveAddress's |
| Cpu.Mos6502.FetchOperand | Assets/Scripts/MOS6502.cs:355-358 | the operand and new machine are OperandOf's |
| Cpu.Mos6502.RunLoad | Assets/Scripts/MOS6502.cs:654-693 | the new machine is LoadStep of the old |
| Cpu.Mos6502.Advance | Assets/Scripts/MOS6502.cs:655 | PC moves on by the instruction length, wrapping at $FFFF |
| Cpu.Mos6502.ReadAndModify | Assets/Scripts/MOS6502.cs:377-381 | the new byte and machine are ReadModify's |
| Cpu.Mos6502.Store | Assets/Scripts/MOS6502.cs:380 | the new machine is WriteBack of the old |
| Cpu.Mos6502.RunModify | Assets/Scripts/MOS6502.cs:742-761 | the new machine is ModifyStep of the old |
| Cpu.Mos6502.RunStore | Assets/Scripts/MOS6502.cs:1424-1494 | the new machine is StoreStep of the old |
| Cpu.Mos6502.Bxx | Assets/Scripts/MOS6502.cs:383-389 | the registers become TakeBranch of the old |
| Cpu.Mos6502.RunBranch | Assets/Scripts/MOS6502.cs:763-821 | the registers become BranchStep of the old |
| Cpu.Mos6502.EnterInterrupt | Assets/Scripts/MOS6502.cs:829-832 | the new machine is InterruptEntry of the old |
| Cpu.Mos6502.RunBrk | Assets/Scripts/MOS6502.cs:824-834 | the new machine is BrkStep of the old |
| Cpu.Mos6502.RunJsr | Assets/Scripts/MOS6502.cs:1086-1091 | the new machine is JsrStep of the old |
| Cpu.Mos6502.RunRts | Assets/Scripts/MOS6502.cs:1354-1359 | the new machine is RtsStep of the old |
| Cpu.Mos6502.RunRti | Assets/Scripts/MOS6502.cs:1347-1352 | the new machine is RtiStep of the old |
| Cpu.Mos6502.RunPush | Assets/Scripts/MOS6502.cs:1264-1276 | the new machine is PushStep of the old |
| Cpu.Mos6502.RunPla | Assets/Scripts/MOS6502.cs:1278-1284 | the new machine is PlaStep of the old |
| Cpu.Mos6502.RunPlp | Assets/Scripts/MOS6502.cs:1286-1291 | the new machine is PlpStep of the old |
| Cpu.Mos6502.RunJmpIndirect | Assets/Scripts/MOS6502.cs:1075-1084 | the new machine is JmpIndirectStep of the old |
| Cpu.Mos6502.RunMemory | Assets/Scripts/MOS6502.cs:651-1606 | the new machine is PerformMemory of the old |
| Cpu.Mos6502.RunStack | Assets/Scripts/MOS6502.cs:1264-1359 | the new machine is PerformStack of the old |
| Cpu.Mos6502.RunPushPull | Assets/Scripts/MOS6502.cs:1264-1291 | the new machine is PerformPushPull of the old |
| Cpu.Mos6502.RunCallReturn | Assets/Scripts/MOS6502.cs:824-1359 | the new machine is PerformCallReturn of the old |
| Cpu.Mos6502.RunCall | Assets/Scripts/MOS6502.cs:824-1091 | BRK or JSR: the new machine is PerformCallReturn of the old |
| Cpu.Mos6502.RunReturn | Assets/Scripts/MOS6502.cs:1347-1359 | RTI or RTS: the new machine is PerformCallReturn of the old |
| Cpu.Mos6502.RunRegisters | Assets/Scripts/MOS6502.cs:1495-1540 | the new machine is PerformRegisters of the old |
| Cpu.Mos6502.RunInstruction | Assets/Scripts/MOS6502.cs:651-1606 | the new machine is Execute of the old with the decoded instruction |
| Cpu.Mos6502.ServiceReset | Assets/Scripts/MOS6502.cs:593-606 | the new machine is ResetStep of the old |
| Cpu.Mos6502.ServiceNmi | Assets/Scripts/MOS6502.cs:615-625 | the new machine is NmiStep of the old |
| Cpu.Mos6502.ServiceIrq | Assets/Scripts/MOS6502.cs:626-636 | the new machine is IrqStep of the old |
| Cpu.Mos6502.FetchOpcode | Assets/Scripts/MOS6502.cs:638 | the new machine is Fetched of the old |
| Cpu.Mos6502.FetchAddress | Assets/Scripts/MOS6502.cs:648-649 | the new machine is FetchOperands of the old |
| Cpu.Mos6502.ExecuteOpcode | Assets/Scripts/MOS6502.cs:648-651 | the new machine is ExecuteFetched of the old; the files are unchanged |
| Cpu.Mos6502.CallHandler | Assets/Scripts/MOS6502.cs:644 | the handler sees PC, A, X and Y; memory, files and completion are TrapSpec's and only A changes among the registers |
| Cpu.Mos6502.RunTrap | Assets/Scripts/MOS6502.cs:642-646 | machine, files and completion are TrapPath's |
| Cpu.Mos6502.ReturnFromTrap | Assets/Scripts/MOS6502.cs:645-651 | the fetched opcode is replaced by RTS ($60) and executed; files unchanged |
| Cpu.Mos6502.Preempt | Assets/Scripts/MOS6502.cs:593-636 | the new machine is PreemptStep of the old |
| Cpu.Mos6502.RunNext | Assets/Scripts/MOS6502.cs:638-651 | machine, files and completion are InstructionStep's |
| Cpu.Mos6502.ServicePending | Assets/Scripts/MOS6502.cs:593-636 | the new machine is PreemptStep of the old; files unchanged |
| Cpu.Mos6502.Process | Assets/Scripts/MOS6502.cs:591-1608 | with something pending, the machine becomes PreemptStep's and the call ends normally; otherwise machine, files and completion are InstructionStep's |
| CpuLaws.StackIsRam | Assets/Scripts/MOS6502.cs:230-245 | stack reads and writes at $0100 + SP are plain RAM accesses: no banking, no hook |
| CpuLaws.PushThenPop | Assets/Scripts/MOS6502.cs:230-245 | Pop after Push returns the pushed byte and restores every register |
| CpuLaws.Push16ThenPop16 | Assets/Scripts/MOS6502.cs:235-251 | Pop16 after Push16 returns the pushed word and restores every register |
| CpuLaws.CallReturnOpcodes | Assets/Scripts/MOS6502.cs:1086-1359 | opcode $20 is JSR and $60 is RTS, both 6 cycles |
| CpuLaws.ExecuteJsr | Assets/Scripts/MOS6502.cs:1086-1091 | executing JSR is its pushes and jump, then 6 cycles |
| CpuLaws.ExecuteRts | Assets/Scripts/MOS6502.cs:1354-1359 | executing RTS is the pull and PC + 1, then 6 cycles |
| CpuLaws.Popped16IgnoresRegisters | Assets/Scripts/MOS6502.cs:246-251 | the pulled word depends only on SP and memory |
| CpuLaws.RtsEffect | Assets/Scripts/MOS6502.cs:1354-1359 | after RTS, PC is one past the pulled address, SP two up and 6 cycles counted |
| CpuLaws.ReturnAfterJsr | Assets/Scripts/MOS6502.cs:1088 | the return address JSR pushes, plus one, is the byte after the JSR |
| CpuLaws.Pushed16Sp | Assets/Scripts/MOS6502.cs:235-239 | Push16 moves SP two bytes down, wrapping within page 1, and changes no other register |
| CpuLaws.JsrState | Assets/Scripts/MOS6502.cs:1086-1091 | JSR pushes its return address, moves SP two down, jumps to the operand and counts 6 cycles |
| CpuLaws.JsrFacts | Assets/Scripts/MOS6502.cs:1086-1091 | a JSR leaves its return address on top of the stack |
| CpuLaws.JsrThenRts | Assets/Scripts/MOS6502.cs:1086-1359 | JSR then RTS continues at the byte after the JSR with SP restored and 12 cycles counted |
| CpuLaws.ApplyLoadKeeps | Assets/Scripts/MOS6502.cs:320-565 | a reading operation leaves PC, SP and the cycle count alone |
| CpuLaws.LoadExecutes | Assets/Scripts/MOS6502.cs:654-693 | a reading opcode runs LoadStep and then counts the table's cycles |
| CpuLaws.IndexedReadCycles | Assets/Scripts/MOS6502.cs:280-295 | an abs,X or abs,Y read takes exactly one cycle more than the table when and only when the index crosses a page; PC moves 3 |
| CpuLaws.IndexedLoadStep | Assets/Scripts/MOS6502.cs:280-295 | the LoadStep half of the abs-indexed page penalty |
| CpuLaws.IndirectYReadCycles | Assets/Scripts/MOS6502.cs:300-307 | a (zp),Y read takes one cycle more exactly when pointer and pointer + Y lie in different pages |
| CpuLaws.IndirectYLoadStep | Assets/Scripts/MOS6502.cs:300-307 | the LoadStep half of the (zp),Y page penalty |
| CpuLaws.UncheckedAddressKeepsRegisters | Assets/Scripts/MOS6502.cs:280-307 | without the page check, address resolution changes no register |
| CpuLaws.StoreCycles | Assets/Scripts/MOS6502.cs:1424-1494 | a store counts exactly the table's cycles in every mode |
| CpuLaws.ModifyCycles | Assets/Scripts/MOS6502.cs:742-761 | a read-modify-write counts exactly the table's cycles in every mode |
| CpuLaws.NoPenaltyOnWrites | Assets/Scripts/MOS6502.cs:757-761 | every store and read-modify-write opcode, abs,X included, adds exactly its table count |
| CpuLaws.BranchCycles | Assets/Scripts/MOS6502.cs:383-389 | a branch not taken moves PC 2 in 2 cycles; a taken one adds the signed offset, one cycle, and one more on a page cross; memory untouched |
| CpuLaws.BranchOpcodes | Assets/Scripts/MOS6502.cs:763-851 | every branch opcode counts 2 cycles in the table |
| CpuLaws.ResetServedFirst | Assets/Scripts/MOS6502.cs:593-606 | a pending reset wins: SP - 3, I set, PC from $FFFC, cycles 7, reset, jam, NMI and IRQ cleared |
| CpuLaws.JamServedSecond | Assets/Scripts/MOS6502.cs:608-613 | a jammed processor without reset only drops pending NMI and IRQ |
| CpuLaws.PushedRegs | Assets/Scripts/MOS6502.cs:230-234 | a push changes no register but SP, which drops by one |
| CpuLaws.ThreePushes | Assets/Scripts/MOS6502.cs:617-618 | Push16 then Push change no register but SP, which drops by three |
| CpuLaws.InterruptFacts | Assets/Scripts/MOS6502.cs:615-636 | interrupt entry pushes PC and the status with bit 4 clear, SP ends three down, I set, PC from the vector |
| CpuLaws.NmiServedThird | Assets/Scripts/MOS6502.cs:615-625 | a pending NMI, I set or not: vector $FFFA, three bytes pushed, I set, 7 cycles, both lines cleared |
| CpuLaws.IrqServedFourth | Assets/Scripts/MOS6502.cs:626-636 | a pending IRQ with I clear: vector $FFFE, three bytes pushed, I set, IRQ cleared, no cycles |
| CpuLaws.PushedStores | Assets/Scripts/MOS6502.cs:230-234 | a push is one store at $0100 + SP, and SP drops by one modulo 256 |
| CpuLaws.ThreeStores | Assets/Scripts/MOS6502.cs:230-239 | Push16 then Push store the PC high byte, the PC low byte and the status at SP, SP - 1 and SP - 2 within page 1 |
| CpuLaws.StackSlotsDiffer | Assets/Scripts/MOS6502.cs:230-239 | the three stack slots of an interrupt are distinct addresses of page 1 |
| CpuLaws.SpSteps | Assets/Scripts/MOS6502.cs:230-239 | pulling b bytes after pushing a (at most three) leaves the stack pointer a - b below where it started, wrapping within page 1 |
| CpuLaws.InterruptStores | Assets/Scripts/MOS6502.cs:615-636 | interrupt entry changes RAM by exactly three stores, the PC high byte at $0100 + SP, the low byte at SP - 1 and the status with bit 4 clear at SP - 2, within page 1, and leaves SP three down |
| CpuLaws.InterruptStack | Assets/Scripts/MOS6502.cs:615-636 | after those stores the three slots read back the PC high byte, the PC low byte and the status with bit 4 clear |
| CpuLaws.SlotsReadBack | Assets/Scripts/MOS6502.cs:230-239 | three stores to the three interrupt stack slots each read back as stored |
| CpuLaws.RtiPulls | Assets/Scripts/MOS6502.cs:1347-1352 | RTI loads the status from SP + 1 and PC from SP + 2 (low) and SP + 3 (high), wrapping within page 1, and SP ends three up |
| CpuLaws.InterruptThenRti | Assets/Scripts/MOS6502.cs:829-832 | RTI on a stack that holds PC and a status pushed three slots below the old SP restores PC, SP and every flag |
| CpuLaws.EntryThenRti | Assets/Scripts/MOS6502.cs:615-636 | RTI straight after an NMI or IRQ entry brings back the interrupted PC, SP and flags |
| CpuLaws.Popped16OnRam | Assets/Scripts/MOS6502.cs:246-251 | two machines that agree on SP and RAM pull the same word |
| CpuLaws.Popped16Sp | Assets/Scripts/MOS6502.cs:246-251 | Pop16 moves SP two bytes up, wrapping within page 1 |
| CpuLaws.TrapEndsWithRts | Assets/Scripts/MOS6502.cs:638-651 | at $FF00 or above with a handler, Process runs the handler then an RTS: PC one past the stacked word, SP two up, the handler's A, 6 cycles; a handler that fails stops there |
| CpuLaws.KilEntries | Assets/Scripts/MOS6502.cs:1555-1569 | the twelve KIL opcodes jam and count no cycles |
| CpuLaws.KilLow | Assets/Scripts/MOS6502.cs:1556-1560 | the KIL entries below $50 |
| CpuLaws.KilMiddle | Assets/Scripts/MOS6502.cs:1561-1563 | the KIL entries from $50 to $8F |
| CpuLaws.KilHigh | Assets/Scripts/MOS6502.cs:1564-1567 | the KIL entries from $90 up |
| CpuLaws.KilOnlyThere | Assets/Scripts/MOS6502.cs:1555-1569 | no other opcode jams |
| CpuLaws.KilJams | Assets/Scripts/MOS6502.cs:1555-1569 | a KIL opcode sets jam and changes nothing else; Process afterwards only drops pending interrupts until a reset |
| CpuLaws.UnlistedOpcodeIsNop | Assets/Scripts/MOS6502.cs:1603-1605 | every opcode outside the 165 the switch lists decodes as implied NOP and runs as one: PC one on, two cycles, nothing else changed |
| CpuLaws.ListedIsTable | Assets/Scripts/MOS6502.cs:651-1605 | every listed opcode but $EA has its own table entry, so the default case catches exactly the unlisted ones |
| Vic2.ControlBitsAsStored | Assets/Scripts/VIC2.cs:129-137 | the chip's read of $D011 agrees with the stored register in bits 0..6, the only ones it decodes (bit 7 reads back the raster line) |
| Vic2.SetupOf | Assets/Scripts/VIC2.cs:124-146 | the register decoding at the top of a line always yields scroll values below 8 |
| Vic2.DecodeRegisters | Assets/Scripts/VIC2.cs:126-146 | decoding any register values yields X and Y scroll values below 8 |
| Vic2.VideoBanks | Assets/Scripts/VIC2.cs:139 | the 16 KB video bank is $C000, $8000, $4000 or $0000 for $DD00 bits 0..1 equal to 0, 1, 2, 3 |
| Vic2.BadLine | Assets/Scripts/VIC2.cs:103-117 | a bad line keeps the raster invariant (rows never pass 25, a drawing line draws from the bitmap row) and the line number |
| Vic2.BadLineRows | Assets/Scripts/VIC2.cs:103-117 | a bad line latches the next row; it leaves idle exactly when fewer than 25 rows were fetched, then counts the row, makes it the bitmap row and schedules the next bad line 8 lines on; otherwise the counters stay |
| Vic2.BadLines | Assets/Scripts/VIC2.cs:103-117 | any number of bad lines keeps the raster invariant |
| Vic2.FrameRows | Assets/Scripts/VIC2.cs:90-117 | after n bad lines from the start of a frame the row counter is min(n, 25), and the chip is idle exactly when n exceeds 25 |
| Vic2.ScreenCodes | Assets/Scripts/VIC2.cs:156 | a character row has 40 screen codes |
| Vic2.ColourCodes | Assets/Scripts/VIC2.cs:157 | a character row has 40 colour nibbles |
| Vic2.ColourRamAddress | Assets/Scripts/VIC2.cs:157 | the colour nibbles of the 25 rows lie in $D800..$DBFF, inside the I/O area |
| Vic2.Exponent | Assets/Scripts/VIC2.cs:163 | the bit-mask position of a pixel always names one of the masks the loop can hold |
| Vic2.CharIndexOf | Assets/Scripts/VIC2.cs:161-227 | a pixel of the 320-wide line falls in one of the 40 character cells |
| Vic2.NextPixel | Assets/Scripts/VIC2.cs:223-233 | one pixel on, the mask moves down one bit in the same cell, or, from bit 0, restarts at bit 7 of the next cell |
| Vic2.MaskSteps | Assets/Scripts/VIC2.cs:163-223 | each mask is twice the next; a mask is above $80 exactly while the X scroll still holds it back; masks 0..7 are the single bits |
| Vic2.FirstMask | Assets/Scripts/VIC2.cs:163 | the first mask of a line is $80 shifted left by the X scroll |
| Vic2.BitPair | Assets/Scripts/VIC2.cs:260 | a multicolour bit pair is one of 0..3 |
| Vic2.Fill | Assets/Scripts/VIC2.cs:168-180 | a filled line is 320 pixels, every one of the given colour |
| Vic2.LineRow | Assets/Scripts/VIC2.cs:167-373 | a drawn background line is 320 pixels wide |
| Vic2.BackgroundRow | Assets/Scripts/VIC2.cs:181-373 | a text or bitmap background line is 320 pixels wide |
| Vic2.SpriteRegisterAddresses | Assets/Scripts/VIC2.cs:385-408 | the position and colour registers of sprites 0..7 are at $D000+2i, $D001+2i and $D027+i, with no wrap-around |
| Vic2.PaintAt | Assets/Scripts/VIC2.cs:415-441 | painting one copy of a sprite pixel, with the corrected column test, keeps the line 320 pixels wide |
| Vic2.PaintCopies | Assets/Scripts/VIC2.cs:415-442 | painting the copies of a sprite pixel keeps the line 320 pixels wide |
| Vic2.PaintSprite | Assets/Scripts/VIC2.cs:410-443 | painting a sprite row keeps the line 320 pixels wide |
| Vic2.StartSprite | Assets/Scripts/VIC2.cs:385-393 | the start test never touches the line being drawn |
| Vic2.AdvanceSprite | Assets/Scripts/VIC2.cs:395-449 | drawing a sprite and stepping its row keeps eight sprite slots and a 320-pixel line |
| Vic2.SpriteStep | Assets/Scripts/VIC2.cs:383-449 | one turn of the sprite loop keeps eight sprite slots and a 320-pixel line |
| Vic2.Sprites | Assets/Scripts/VIC2.cs:383-450 | the sprite loop keeps eight sprite slots and a 320-pixel line |
| Vic2.Splice | Assets/Scripts/VIC2.cs:124-171 | writing a line into the frame buffer keeps the buffer's size |
| Vic2.LatchRow | Assets/Scripts/VIC2.cs:148-159 | the bad-line test and the fetch keep the line number, the sprites and the pixels |
| Vic2.Background | Assets/Scripts/VIC2.cs:161-373 | drawing the background changes only the pixels |
| Vic2.SpriteLine | Assets/Scripts/VIC2.cs:375-450 | the sprite loop keeps the raster and the latched codes and colours |
| Vic2.PaintLine | Assets/Scripts/VIC2.cs:161-450 | painting a line keeps the raster and the latched codes and colours |
| Vic2.RenderSpec | Assets/Scripts/VIC2.cs:119-454 | a line step keeps the chip state well formed |
| Vic2.RenderSteps | Assets/Scripts/VIC2.cs:119-454 | a visible line is the row latch, then the paint, then the next line number |
| Vic2.RenderOnlyItsLine | Assets/Scripts/VIC2.cs:119-454 | a line step changes no pixel outside its own 320, and moves the line counter on by one until it reaches 200, where nothing happens |
| Vic2.SpliceKeeps | Assets/Scripts/VIC2.cs:124-171 | writing a line into the frame buffer leaves every pixel outside it as it was |
| Vic2.FirstBadLine | Assets/Scripts/VIC2.cs:148 | after BeginFrame the first line is a bad line exactly when the Y scroll is at most 3 |
| Vic2.SpriteStartRow | Assets/Scripts/VIC2.cs:388-391 | a sprite that starts does so at row 0 on the line 50 above its Y, or part-way down (a row below 21) on line 0 |
| Vic2.TextPixel | Assets/Scripts/VIC2.cs:184-234 | in single-colour text mode a pixel inside the borders shows the cell's colour when its glyph bit is set, else the background (or, in extended background mode, one of four chosen by the code's top two bits) |
| Vic2.BitmapPixel | Assets/Scripts/VIC2.cs:295-326 | in single-colour bitmap mode a set bit shows the high nibble of the cell's code and a clear bit the low nibble, except that a zero cell byte shows the background |
| Vic2.ScrolledInPixels | Assets/Scripts/VIC2.cs:196-199 | the pixels scrolled in before the first cell show the background, except in extended background mode, where the first code selects it |
| Vic2.ColumnCovers | Assets/Scripts/VIC2.cs:410-442 | sprite pixel j covers exactly its one (or, X-expanded, two) columns from its start column |
| Vic2.CopiesAt | Assets/Scripts/VIC2.cs:415-442 | after painting m copies of pixel j, a column shows that pixel's colour exactly when it is one of the copies, is drawable and the pixel is not transparent |
| Vic2.SpriteUpTo | Assets/Scripts/VIC2.cs:410-443 | after painting the first n sprite pixels, a column shows the colour of the pixel covering it when that pixel is one of the n and is visible there, else its old colour |
| Vic2.SpriteClosedForm | Assets/Scripts/VIC2.cs:410-443 | a painted sprite row gives each column the colour of the sprite pixel covering it where that pixel is opaque and the column drawable, and leaves every other column as it was |
| Vic2.PaintAtAsWritten | Assets/Scripts/VIC2.cs:417 | the sprite write with the column test as written either fails (past the buffer) or keeps the buffer's size |
| Vic2.AsWrittenOverrun | Assets/Scripts/VIC2.cs:417 | a sprite at X = 344 with the side borders off passes the written test at column 320: on line 199 the write falls past the buffer, on earlier lines it paints the first pixel of the next line |
| Vic2.BackgroundAt | Assets/Scripts/VIC2.cs:161-373 | each pixel of the background line is the border colour in the side borders, else the colour the drawing loop computes from the mask, the cell and the cell byte it holds there |
| Vic2.MaskAdvance | Assets/Scripts/VIC2.cs:223-233 | when the halved mask runs out the loop restarts at $80 in the next cell, otherwise it takes the next lower bit in the same cell |
| Vic2.Vic2.constructor | Assets/Scripts/VIC2.cs:61-82 | a new chip has a black 320x200 screen, zeroed line buffers and no active sprite |
| Vic2.Vic2.BeginFrame | Assets/Scripts/VIC2.cs:90-101 | the raster returns to line 0, no row fetched, idle, and every sprite is deactivated; nothing else changes |
| Vic2.Vic2.DoBadLine | Assets/Scripts/VIC2.cs:103-117 | the raster moves as the bad-line step says and nothing else changes |
| Vic2.Vic2.Register | Assets/Scripts/VIC2.cs:126-146 | a register read returns what the bus answers at that I/O address |
| Vic2.Vic2.ReadSetup | Assets/Scripts/VIC2.cs:124-146 | the registers read at the top of a line decode to the line's setup |
| Vic2.Vic2.FetchColumn | Assets/Scripts/VIC2.cs:154-158 | one column's screen code and colour nibble are latched; the other columns keep theirs |
| Vic2.Vic2.FetchRow | Assets/Scripts/VIC2.cs:152-159 | the 40 codes and colours of the current row are latched |
| Vic2.Vic2.FillLine | Assets/Scripts/VIC2.cs:168-180 | the line is filled with one colour and the rest of the screen is as it was |
| Vic2.Vic2.FetchCharByte | Assets/Scripts/VIC2.cs:184-185 | the cell byte read is the glyph or bitmap byte of that cell for the current row |
| Vic2.Vic2.BackgroundColour | Assets/Scripts/VIC2.cs:192-277 | the colour chosen for a pixel is that pixel of the background line |
| Vic2.Vic2.NextMask | Assets/Scripts/VIC2.cs:223-233 | after a pixel the mask, bit-pair shift and cell index are those of the next pixel, and the cell byte is re-read exactly when the cell changes |
| Vic2.Vic2.PutPixel | Assets/Scripts/VIC2.cs:193 | one more pixel of the line is written and the rest of the screen is as it was |
| Vic2.Vic2.DrawBackground | Assets/Scripts/VIC2.cs:181-373 | the line's pixels become the background line and the rest of the screen is as it was |
| Vic2.Vic2.ReadSpriteRegs | Assets/Scripts/VIC2.cs:375-381 | the sprite enable, multicolour, X bit 8 and expansion registers and colours are read as the bus holds them |
| Vic2.Vic2.SpriteDrawAt | Assets/Scripts/VIC2.cs:400-408 | a sprite's start column, expansion, data address and colour are decoded from its registers |
| Vic2.Vic2.PlotSpritePixel | Assets/Scripts/VIC2.cs:417-440 | one copy of a sprite pixel is painted with the corrected column test |
| Vic2.Vic2.PlotCopies | Assets/Scripts/VIC2.cs:415-442 | the one or two copies of a sprite pixel are painted |
| Vic2.Vic2.DrawSprite | Assets/Scripts/VIC2.cs:410-443 | the sprite row is painted over the line and the rest of the screen is as it was |
| Vic2.Vic2.StartTurn | Assets/Scripts/VIC2.cs:385-393 | the sprite start test updates the active flags and rows as the start step says |
| Vic2.Vic2.DrawTurn | Assets/Scripts/VIC2.cs:398-444 | the sprite is drawn into the line only and the rest of the screen is as it was |
| Vic2.Vic2.AdvanceTurn | Assets/Scripts/VIC2.cs:395-449 | an active sprite is drawn when the line is not border and steps to its next row, ending after row 20 |
| Vic2.Vic2.SpriteTurn | Assets/Scripts/VIC2.cs:383-449 | one turn of the sprite loop does what the sprite step says |
| Vic2.Vic2.DrawSprites | Assets/Scripts/VIC2.cs:383-450 | the loop over sprites 7 down to 0 does what the sprite pass says, inside the current line only |
| Vic2.Vic2.DrawLine | Assets/Scripts/VIC2.cs:161-373 | the background is drawn, and sprites are to be drawn exactly when the line is not a border or blanked line |
| Vic2.Vic2.SpritePhase | Assets/Scripts/VIC2.cs:375-450 | the sprite loop changes the chip as the sprite-line step says |
| Vic2.Vic2.Latch | Assets/Scripts/VIC2.cs:124-159 | the line's setup is read and the bad-line test and row fetch are done as the latch step says |
| Vic2.Vic2.Paint | Assets/Scripts/VIC2.cs:161-450 | the background and sprites are painted as the paint step says |
| Vic2.Vic2.NextLine | Assets/Scripts/VIC2.cs:453 | the line counter moves on by one and nothing else changes |
| Vic2.Vic2.RenderNextLine | Assets/Scripts/VIC2.cs:119-454 | the chip's new state is the line step of its old state over the bus, which it does not change |
| Emulator.WithIrq | Assets/Scripts/Emulator.cs:202 | SetIRQ changes only the pending IRQ, which becomes timer flag OR raster flag |
| Emulator.LineStart | Assets/Scripts/Emulator.cs:196 | the per-line latch update changes neither registers nor RAM nor the I/O shadow |
| Emulator.RunLine | Assets/Scripts/Emulator.cs:198-204 | the line loop keeps the machine valid |
| Emulator.LineTurnSpec | Assets/Scripts/Emulator.cs:202-203 | one turn keeps the machine valid |
| Emulator.LineAfter | Assets/Scripts/Emulator.cs:200-204 | the rest of the line keeps the machine valid |
| Emulator.LineReachesTarget | Assets/Scripts/Emulator.cs:200-204 | a line that ends normally has its cycle count at or past the line's target, or the processor jammed |
| Emulator.LineAtTarget | Assets/Scripts/Emulator.cs:200 | a line already at its target, or jammed, runs nothing |
| Emulator.LineOutOfSteps | Assets/Scripts/Emulator.cs:200-204 | a line below its target with no steps left stops out of fuel, unchanged |
| Emulator.LineTurn | Assets/Scripts/Emulator.cs:200-204 | below the target, the line is one Process step from the machine with its IRQ set, then the rest of the line |
| Emulator.LineGoesOn | Assets/Scripts/Emulator.cs:200-204 | after a normal step the line goes on with one step fewer; an exception ends it |
| Emulator.ProcessIsSpec | Assets/Scripts/MOS6502.cs:591-636 | Process is the pre-emption step when a reset, jam or interrupt is pending, and the instruction step otherwise |
| Emulator.VideoDefaults | Assets/Scripts/Emulator.cs:80-82 | the three video register writes keep the bus valid |
| Emulator.PortDefaults | Assets/Scripts/Emulator.cs:83-86 | the four port writes keep the bus valid |
| Emulator.PowerOnWrites | Assets/Scripts/Emulator.cs:77-87 | InitMemory's eight stores keep the bus valid |
| Emulator.PowerOnSetsValues | Assets/Scripts/Emulator.cs:77-87 | after InitMemory, $01 = $37 and the seven I/O registers hold their power-on values, whatever was there before; RAM changed only at $01 |
| Emulator.PlainRegister | Assets/Scripts/Emulator.cs:309-313 | a register the read hook declines reads back as stored |
| Emulator.ControlBits | Assets/Scripts/VIC2.cs:129-137 | $D011 = 27 decodes as Y scroll 3, 25 rows, display on, text mode, no extended colour |
| Emulator.MemoryBits | Assets/Scripts/VIC2.cs:140-142 | $D018 = $14 selects character data at $1000, bitmap at 0, screen at $0400 |
| Emulator.PowerOnDecode | Assets/Scripts/VIC2.cs:129-142 | the power-on register values decode to bank 0, screen $0400, characters $1000, Y scroll 3, X scroll 0, no borders, display on, multicolour text |
| Emulator.PowerOnScreen | Assets/Scripts/Emulator.cs:77-87 | with the power-on values in memory the video chip shows a 40x25 multicolour text screen at $0400 with characters at $1000 |
| Emulator.Ended | Assets/Scripts/Emulator.cs:99-100 | the copy ends normally exactly when the file was read to its end, and throws exactly when a read faulted |
| Emulator.LoadLoop | Assets/Scripts/Emulator.cs:99-100 | the copy loop keeps the bus valid |
| Emulator.LowWrite | Assets/Scripts/RAM64K.cs:106-112 | below $D000 the banked write is a plain RAM store |
| Emulator.LoadTurn | Assets/Scripts/Emulator.cs:99-100 | one turn reads a byte, stores it at the address below $D000, and goes on at the next address with the rest of the file |
| Emulator.LoadPlacesFile | Assets/Scripts/Emulator.cs:98-100 | a file that fits below $D000 is copied byte for byte to the load address, the end is the address after it, and nothing else changes |
| Emulator.LoadPlacesNothing | Assets/Scripts/Emulator.cs:99-100 | a loop that stops before its first write places the empty file |
| Emulator.PlacedStep | Assets/Scripts/Emulator.cs:100 | one stored byte followed by the rest placed after it is the whole file placed |
| Emulator.BootTail | Assets/Scripts/Emulator.cs:101-116 | the end pointers and reset vector writes keep the bus valid |
| Emulator.EndPointers | Assets/Scripts/Emulator.cs:101-105 | the four zero-page writes keep the bus valid |
| Emulator.ResetVectorSet | Assets/Scripts/Emulator.cs:106-116 | the reset-vector writes keep the bus valid |
| Emulator.BootVectors | Assets/Scripts/Emulator.cs:101-116 | $2D/$2E and $AE/$AF hold the end address, the reset vector is the CLALL vector from $032C (load address at most $032C) or $080D, and no other byte changes |
| Emulator.EndPointersStore | Assets/Scripts/Emulator.cs:102-105 | the end pointers are four plain RAM stores of the low and high byte |
| Emulator.ResetVectorStore | Assets/Scripts/Emulator.cs:107-116 | the reset vector is two plain RAM stores at $FFFC/$FFFD |
| Emulator.HighWrite | Assets/Scripts/RAM64K.cs:106-112 | above $DFFF the banked write is a plain RAM store |
| Emulator.BootSpec | Assets/Scripts/Emulator.cs:89-118 | BootGame keeps the bus valid |
| Emulator.BootFrom | Assets/Scripts/Emulator.cs:95-117 | the boot from an open file keeps the bus valid |
| Emulator.HeaderSplit | Assets/Scripts/Emulator.cs:97 | the two header reads return the file's first two bytes, and the copy sees the rest |
| Emulator.PlacedThenTail | Assets/Scripts/Emulator.cs:97-116 | a placed program followed by the tail writes is a booted program |
| Emulator.BootOpens | Assets/Scripts/Emulator.cs:94-96 | a boot that finds a file goes on from its handle |
| Emulator.BootEndsWithTail | Assets/Scripts/Emulator.cs:97-116 | header reads that succeed and a copy that ends normally are followed by the pointer and vector writes |
| Emulator.BootPlacesProgram | Assets/Scripts/Emulator.cs:89-118 | booting a program that reads to its end and fits below $D000 ends normally with its bytes at the load address from its first two bytes, both end pointers after them, the reset vector set, and nothing else changed |
| Emulator.BootFromPlacesProgram | Assets/Scripts/Emulator.cs:95-117 | the same, from the file's handle on |
| Emulator.LinesSpec | Assets/Scripts/Emulator.cs:151-160 | a run of lines keeps the snapshot valid |
| Emulator.RunThenDraw | Assets/Scripts/Emulator.cs:194-207 | one line and the rest keep the snapshot valid |
| Emulator.DrawThenRest | Assets/Scripts/Emulator.cs:206-207 | the drawing and the rest keep the snapshot valid |
| Emulator.LineSpec | Assets/Scripts/Emulator.cs:194-208 | one line keeps the snapshot valid |
| Emulator.LineSteps | Assets/Scripts/Emulator.cs:194-208 | a line is the latch update and processor loop, then, when that ends normally, the screen line drawn from memory as the processor left it |
| Emulator.LinesStep | Assets/Scripts/Emulator.cs:151-160 | a run of lines is its first line, then the rest unless that line ended early |
| Emulator.FrameReset | Assets/Scripts/Emulator.cs:148-149 | clearing the cycle counters keeps the machine valid |
| Emulator.FlushedAudio | Assets/Scripts/Emulator.cs:162-167 | the end-of-frame audio flush keeps the machine valid |
| Emulator.FrameEndAudio | Assets/Scripts/Emulator.cs:162-167 | when the mark is behind, the voices are loaded from the SID registers in the I/O shadow and run for exactly the cycles up to 19656; the mark ends at the later of itself and 19656; registers, memory, ports and other latches stay |
| Emulator.FlushedAudioIdempotent | Assets/Scripts/Emulator.cs:162-167 | a second frame-end flush renders nothing more |
| Emulator.FrameSpec | Assets/Scripts/Emulator.cs:144-172 | a frame, ending in the SID flush to the frame's last cycle, keeps the snapshot valid |
| Emulator.ScreenSpec | Assets/Scripts/Emulator.cs:154-167 | the frame from BeginFrame on, ending in the SID flush, keeps the snapshot valid |
| Emulator.BorderSpec | Assets/Scripts/Emulator.cs:159-167 | the lower border, then the SID flush, keeps the snapshot valid |
| Emulator.UnseenLinesKeepScreen | Assets/Scripts/Emulator.cs:151-152 | lines that are not drawn leave the video chip's state unchanged |
| Emulator.SeenLinesDrawInOrder | Assets/Scripts/Emulator.cs:156-157 | visible lines that end normally move the chip's line counter on by one per line |
| Emulator.SeenLineDrawsInOrder | Assets/Scripts/Emulator.cs:156-157 | a visible line draws one screen line, then the rest |
| Emulator.LinesReachTarget | Assets/Scripts/Emulator.cs:151-160 | a run of lines that ends normally ends at or past the last line's cycle target, or jammed |
| Emulator.FrameDrawsScreen | Assets/Scripts/Emulator.cs:144-172 | a frame that ends normally has drawn all 200 screen lines, run the processor to cycle 63*311 unless it jammed, and rendered audio to the frame's 19656 cycles |
| Emulator.ScreenDrawn | Assets/Scripts/Emulator.cs:154-167 | from BeginFrame on, a frame that ends normally has drawn all 200 lines, reached the last line's cycles and flushed the audio |
| Emulator.BorderFinishes | Assets/Scripts/Emulator.cs:159-167 | the lower border leaves the screen alone and, ending normally, reaches the last line's cycles with audio rendered to the frame's end |
| Emulator.Emulator.constructor | Assets/Scripts/Emulator.cs:57-75 | memory, hooks, trap handler, processor and video chip are fresh and wired together; the processor is in reset; no file is named or open; the latches are clear |
| Emulator.Emulator.InitMemory | Assets/Scripts/Emulator.cs:77-87 | memory after the call is PowerOnWrites of memory before it |
| Emulator.Emulator.PowerOnStores | Assets/Scripts/Emulator.cs:79-86 | the eight stores at a given time leave memory equal to PowerOnWrites of memory before them |
| Emulator.Emulator.ValidKept | Assets/Scripts/Emulator.cs:77-87 | stores through memory that leave the video chip and the disk image alone keep the emulator's wiring valid |
| Emulator.Emulator.WriteVideoDefaults | Assets/Scripts/Emulator.cs:80-82 | memory after the call is VideoDefaults of memory before it |
| Emulator.Emulator.WritePortDefaults | Assets/Scripts/Emulator.cs:83-86 | memory after the call is PortDefaults of memory before it |
| Emulator.Emulator.BootGame | Assets/Scripts/Emulator.cs:89-118 | memory and completion are BootSpec's for the disk image |
| Emulator.Emulator.BootFromFile | Assets/Scripts/Emulator.cs:95-117 | memory and completion are BootFrom's for the open file |
| Emulator.Emulator.LoadFile | Assets/Scripts/Emulator.cs:99-100 | memory, end address and completion are LoadLoop's |
| Emulator.Emulator.LoadByte | Assets/Scripts/Emulator.cs:100 | one byte read from the file and stored at the address: the handle moves as ReadStep says, and memory gets the banked store exactly when the read did not throw |
| Emulator.Emulator.SetEndPointers | Assets/Scripts/Emulator.cs:102-105 | memory after the call is EndPointers of memory before it |
| Emulator.Emulator.SetResetVector | Assets/Scripts/Emulator.cs:107-116 | memory after the call is ResetVectorSet of memory before it |
| Emulator.Emulator.RunTurn | Assets/Scripts/Emulator.cs:202-203 | the machine and files after the turn are ProcessSpec of the machine with its IRQ set from the flags |
| Emulator.Emulator.Serve | Assets/Scripts/Emulator.cs:203 | the machine and files after one `Process` call are ProcessSpec of the old ones |
| Emulator.Emulator.RaiseIrq | Assets/Scripts/Emulator.cs:202 | the machine becomes WithIrq of the old one; files unchanged |
| Emulator.Emulator.Turn | Assets/Scripts/Emulator.cs:200-204 | the line from the old state is LineAfter the step this turn took |
| Emulator.Emulator.RunCpu | Assets/Scripts/Emulator.cs:200-204 | machine, files and completion are RunLine's from the old state |
| Emulator.Emulator.ExecuteLine | Assets/Scripts/Emulator.cs:194-208 | the emulator after the call and the completion are LineSpec of the old emulator |
| Emulator.Emulator.CatchUp | Assets/Scripts/Emulator.cs:196-204 | machine, files and completion are RunLine from the machine after the latch update, to the line's cycle target |
| Emulator.Emulator.StartLine | Assets/Scripts/Emulator.cs:196 | only the latches change, to LineStart of the old machine |
| Emulator.Emulator.RenderIfVisible | Assets/Scripts/Emulator.cs:206-207 | a visible line is drawn from current memory by RenderSpec; the processor side is unchanged |
| Emulator.Emulator.RenderLine | Assets/Scripts/Emulator.cs:206-207 | the visible-line drawing: the video chip state becomes RenderSpec of its old state over current memory, while the processor state, its files and the open file handle stay as they were |
| Emulator.Emulator.ExecuteLines | Assets/Scripts/Emulator.cs:151-160 | the emulator after the call and the completion are LinesSpec of the old emulator |
| Emulator.Emulator.FixedUpdate | Assets/Scripts/Emulator.cs:144-172 | the emulator after the call and the completion are FrameSpec of the old emulator |
| Emulator.Emulator.ResetCounters | Assets/Scripts/Emulator.cs:148-149 | only the cycle count and the audio mark change, both to 0 |
| Emulator.Emulator.DrawScreen | Assets/Scripts/Emulator.cs:154-167 | the emulator after the call and the completion are ScreenSpec of the old emulator |
| Emulator.Emulator.LowerBorder | Assets/Scripts/Emulator.cs:159-167 | the emulator after the call and the completion are BorderSpec of the old emulator |
| Emulator.Emulator.FlushFrameAudio | Assets/Scripts/Emulator.cs:162-167 | the machine becomes FlushedAudio of the old one: when the mark is behind, the voices are rendered to the frame's end and the mark moves there; nothing else changes |
| Emulator.Emulator.BufferToFrameEnd | Assets/Scripts/Emulator.cs:163-167 | when the audio mark is behind the frame's end, the voices are BufferSpec of the old ones for the missing cycles with the SID registers in the I/O shadow, and the mark moves to 19656; otherwise nothing changes |

## Left out

- Unity is not part of this model: the texture, the sprite on screen, `Update`, `_textureDirty` and `Awake`'s scene setup. The screen is kept as 320 x 200 palette indices; the Pepto palette's float colours are not modelled.
- The SID's float output is not modelled. This covers `GetOutput`, the output filter (cutoff, resonance, high/band/low pass), the master volume, the sample clock `_cycleAccumulator` and the sample lists. The model covers the integer voice state and the integer waveform values.
- `OnAudioFilterRead` and the audio underrun flag are not modelled: they run on the audio thread, and the model has no concurrency.
- SoundChip.BufferSpec: does not model the adaptive multiplier `1 + (1764 - samples.Count) / 8192` (SID.cs:274-279), because it is floating point over the sample queue. The model renders exactly the cycles asked for. That equals the source whenever at most 126 cycles are asked for, or the queue holds 1764 samples.
- The controls are not modelled: `Controls.UpdateJoystick` and `UpdateKeyboard` are outside the core. The joystick byte and the keyboard matrix are inputs of `IoRegisters.IoHooks`.
- Host files are not modelled (`OpenFileForWrite`, the saved-file check at the start of `OpenFile`, `WriteByte`, `GetSaveFileName`, `FileHandle.Close`). A disk-image handle is open while its track is not 0.
- Kernal.KernalTraps.DropHandle: CHKOUT is modelled as a host file that never opens, so its handle is dropped and CHROUT writes nothing. The C# code would create a host file and return a writer handle.
- `RAM64K.Load` from a stream and `RAM64K.Save` are not modelled. `Save` only throws, and loading from a stream is host I/O. `Load` from a byte array is modelled.
- The `#if EVENT` per-cycle event and the `#if BUG` variants of BRK and JMP ($xxFF) are not modelled, because neither symbol is defined. The model follows the code that is compiled.
- Logging (`Debug.Log*`) is not modelled. The one place where building a log message can throw, on a file name shorter than two bytes, is modelled as an exception outcome.
- What Unity does with an exception that escapes `FixedUpdate` is not modelled. The model stops the frame and reports the exception.
- Cpu.Mos6502.SetIRQ: the processor's own `SetIRQ()` (MOS6502.cs:575) takes no argument and only raises the flag. The emulator calls it as `SetIRQ(_timerIRQFlag || _rasterIRQFlag)` (Emulator.cs:202), with the IRQ line following the flags. The model follows the caller, so the IRQ line is a level that can also drop.
- The processor's cycle counter `_cycles` is an unbounded integer. A C# `int` does not overflow here, because `FixedUpdate` resets it every frame.
- Emulator.Emulator.RunCpu, Emulator.Emulator.ExecuteLine, Emulator.Emulator.ExecuteLines, Emulator.Emulator.FixedUpdate: the line loop takes a step budget, and running out of steps is its own outcome. In the source the loop runs until the line's cycles are reached or the processor jams.
- Disk.FindFileFuel, Kernal.KernalTraps.OpenForRead, Emulator.Emulator.BootGame: the directory walk and the boot load loop take fuel. On a disk whose sector chain loops, the source never terminates.
- Emulator.Emulator.constructor: the disk image is created in the constructor, not at the start of `BootGame`. Nothing uses the disk between the two.
- Disk.DiskImage.constructor: the sector table is built once by `MakeSectorTable` on an array and then kept as its contents. Nothing writes the array after the constructor.
- Vic2.Vic2.RenderNextLine, Vic2.RenderSpec, Emulator.Emulator.FixedUpdate: follow the corrected sprite column test (`k < 320`). The source's overrun at VIC2.cs:417 is not part of the frame model: neither the exception on line 199 nor the stray write to the next line's first pixel. It is modelled only by Vic2.PaintAtAsWritten and Vic2.AsWrittenOverrun (see "## Findings").
- Emulator.BootPlacesProgram: proved only for a program that reads to its end and loads below $D000. Above that, the stores go through the I/O area and its hooks, which `Emulator.LoadLoop` describes store by store.

## Findings

| source | as written | input that shows it | evidently intended | confidence | as-written member | corrected member |
|---|---|---|---|---|---|---|
| Assets/Scripts/VIC2.cs:417 | the sprite column test accepts `k <= 320`, so column 320, one past the end of the line, is drawn when the side borders are off | sprite 0 at X = 344 (X register 88, X bit 8 set), not expanded, $D016 bit 3 set, its first pixel opaque: the write lands on the first pixel of the next line, or past the 64000-pixel buffer on line 199 | `k < 320` | not executed; the counterexample is proved | Vic2.PaintAtAsWritten, Vic2.AsWrittenOverrun | Vic2.PaintAt, Vic2.SpriteClosedForm |
