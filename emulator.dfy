// The scheduler of Assets/Scripts/Emulator.cs: power-on register values,
// the boot loader that copies the first program of the disk image into
// memory, the line loop that runs the processor up to each raster line's
// cycle count, and the frame that renders the 200 visible lines.

module Emulator {
  import opened Bits
  import opened SoundChip
  import opened IoRegisters
  import opened Memory
  import opened Disk
  import opened Kernal
  import opened Cpu
  import opened Vic2

  /** `VIC2.CYCLES_PER_LINE * VIC2.NUM_LINES`: the cycles of one frame. */
  const FrameCycles: nat := CyclesPerLine * LinesPerFrame

  // ---- the processor over one raster line ----

  /** `_timerIRQFlag || _rasterIRQFlag`, read from the latches behind the hooks. */
  predicate IrqLevel(b: Bus) {
    b.hooks.Some? && (b.hooks.value.latch.timerIRQFlag || b.hooks.value.latch.rasterIRQFlag)
  }

  /** `SetIRQ(...)`: the pending IRQ follows the level of the emulator's interrupt flags. */
  function WithIrq(m: Machine): (m': Machine)
    requires m.Valid()
    ensures m'.Valid() && m'.bus == m.bus && m'.regs.cycles == m.regs.cycles && m'.regs.jam == m.regs.jam
    ensures m'.regs.irq == IrqLevel(m.bus)
  {
    m.(regs := m.regs.(irq := IrqLevel(m.bus)))
  }

  /** `UpdateLineCounterAndIRQ(lineNum)` applied to the latches inside the machine's bus. */
  function LineStart(m: Machine, line: nat): (m': Machine)
    requires m.Valid()
    ensures m'.Valid() && m'.regs == m.regs && m'.bus.ram == m.bus.ram && m'.bus.io == m.bus.io
  {
    if m.bus.hooks.None? then m
    else
      var p := m.bus.hooks.value;
      m.(bus := m.bus.(hooks := Some(p.(latch := LineUpdate(p.latch, m.bus.io, line)))))
  }

  /**
   * The `while` loop of `ExecuteLine`: while the cycle count is below
   * `target` and the processor has not jammed, the IRQ line is set from the
   * flags and `Process` runs. A `Process` that throws ends the loop there.
   * `steps` bounds the number of `Process` calls (`NoFuel` past it).
   */
  function RunLine(m: Machine, files: Files, traps: Option<TrapContext>, target: int, dirFuel: nat, steps: nat): (s: Step)
    requires m.Valid()
    ensures s.m.Valid()
    decreases steps, 2
  {
    if m.regs.cycles >= target || m.regs.jam then Step(m, files, Normal)
    else if steps == 0 then Step(m, files, NoFuel)
    else LineTurnSpec(m, files, traps, target, dirFuel, steps)
  }

  /** One turn of the loop: `SetIRQ`, `Process`, and the rest of the line unless `Process` threw. */
  function LineTurnSpec(m: Machine, files: Files, traps: Option<TrapContext>, target: int, dirFuel: nat, steps: nat): (s: Step)
    requires m.Valid() && steps > 0
    ensures s.m.Valid()
    decreases steps, 1
  {
    LineAfter(ProcessSpec(WithIrq(m), files, traps, dirFuel), traps, target, dirFuel, steps)
  }

  /** After a `Process` step `s`, the turn that used one of `steps`: the line stops there unless it ended normally. */
  function LineAfter(s: Step, traps: Option<TrapContext>, target: int, dirFuel: nat, steps: nat): (r: Step)
    requires s.m.Valid() && steps > 0
    ensures r.m.Valid()
    decreases steps, 0
  {
    if s.completion != Normal then s else RunLine(s.m, s.files, traps, target, dirFuel, Spent(steps))
  }

  /** The steps left after one `Process` call. */
  function Spent(steps: nat): nat
    requires steps > 0
  {
    steps - 1
  }

  /**
   * A line that ends normally ends with the cycle count at or past its
   * target, or with the processor jammed.
   */
  lemma {:induction false} LineReachesTarget(m: Machine, files: Files, traps: Option<TrapContext>, target: int,
                                             dirFuel: nat, steps: nat)
    requires m.Valid()
    ensures var s := RunLine(m, files, traps, target, dirFuel, steps);
      s.completion == Normal ==> s.m.regs.cycles >= target || s.m.regs.jam
    decreases steps
  {
    if m.regs.cycles < target && !m.regs.jam && steps > 0 {
      var s := ProcessSpec(WithIrq(m), files, traps, dirFuel);
      LineTurn(m, files, traps, target, dirFuel, steps, s);
      LineGoesOn(s, traps, target, dirFuel, steps);
      if s.completion == Normal {
        LineReachesTarget(s.m, s.files, traps, target, dirFuel, Spent(steps));
      }
    }
  }

  /** A line that has already reached its target, or has jammed, runs nothing. */
  lemma LineAtTarget(m: Machine, files: Files, traps: Option<TrapContext>, target: int, dirFuel: nat, steps: nat)
    requires m.Valid() && (m.regs.cycles >= target || m.regs.jam)
    ensures RunLine(m, files, traps, target, dirFuel, steps) == Step(m, files, Normal)
  {
  }

  /** A line below its target with no steps left stops with `NoFuel`. */
  lemma LineOutOfSteps(m: Machine, files: Files, traps: Option<TrapContext>, target: int, dirFuel: nat)
    requires m.Valid() && m.regs.cycles < target && !m.regs.jam
    ensures RunLine(m, files, traps, target, dirFuel, 0) == Step(m, files, NoFuel)
  {
  }

  /** One turn of the line loop: the rest of the line after the `Process` step from the machine with its IRQ line set. */
  lemma LineTurn(m: Machine, files: Files, traps: Option<TrapContext>, target: int, dirFuel: nat, steps: nat, s: Step)
    requires m.Valid() && m.regs.cycles < target && !m.regs.jam && steps > 0
    requires s == ProcessSpec(WithIrq(m), files, traps, dirFuel)
    ensures RunLine(m, files, traps, target, dirFuel, steps) == LineAfter(s, traps, target, dirFuel, steps)
  {
    assert RunLine(m, files, traps, target, dirFuel, steps) == LineTurnSpec(m, files, traps, target, dirFuel, steps);
  }

  /** A step that ended normally goes on with the rest of the line; any other ends it. */
  lemma LineGoesOn(s: Step, traps: Option<TrapContext>, target: int, dirFuel: nat, steps: nat)
    requires s.m.Valid() && steps > 0
    ensures s.completion == Normal ==>
      LineAfter(s, traps, target, dirFuel, steps) == RunLine(s.m, s.files, traps, target, dirFuel, Spent(steps))
    ensures s.completion != Normal ==> LineAfter(s, traps, target, dirFuel, steps) == s
  {
  }

  /** `Process`'s two cases put together: its effect is `ProcessSpec`. */
  lemma ProcessIsSpec(m: Machine, files: Files, traps: Option<TrapContext>, fuel: nat, s: Step)
    requires m.Valid()
    requires Preempted(m.regs) ==> s == Step(PreemptStep(m), files, Normal)
    requires !Preempted(m.regs) ==> s == InstructionStep(m, files, traps, fuel)
    ensures s == ProcessSpec(m, files, traps, fuel)
  {
    if Preempted(m.regs) {
      PreemptedSpec(m, files, traps, fuel);
    } else {
      InstructionSpec(m, files, traps, fuel);
    }
  }

  // ---- power-on memory ----

  /**
   * `InitMemory`: the processor port at $37 (BASIC, KERNAL and I/O
   * visible), then $D018 = $14, $D011 = 27, $D016 = 24, $DD00 = 3,
   * $D030 = $D0BC = $DC00 = $FF written to the I/O registers.
   */
  predicate PowerOnValues(b: Bus)
    requires b.Valid()
  {
    b.ram[1] == 0x37 && b.io[0x18] == 0x14 && b.io[0x11] == 27 && b.io[0x16] == 24 && b.io[0xd00] == 3 &&
    b.io[0x30] == 0xff && b.io[0xbc] == 0xff && b.io[0xc00] == 0xff
  }

  /** `InitMemory`'s three video chip registers: memory pointers $14, control 27 (screen on, 25 rows), 24. */
  function VideoDefaults(b: Bus, now: int): (r: Bus)
    requires b.Valid()
    ensures r.Valid()
  {
    BusWriteIO(BusWriteIO(BusWriteIO(b, 0xd018, 0x14, now), 0xd011, 27, now), 0xd016, 24, now)
  }

  /** `InitMemory`'s other four I/O registers: $DD00 = 3 (video bank 0), $D030, $D0BC and $DC00 = $FF. */
  function PortDefaults(b: Bus, now: int): (r: Bus)
    requires b.Valid()
    ensures r.Valid()
  {
    BusWriteIO(BusWriteIO(BusWriteIO(BusWriteIO(b, 0xdd00, 3, now), 0xd030, 0xff, now), 0xd0bc, 0xff, now), 0xdc00, 0xff, now)
  }

  /** `InitMemory`'s eight stores: the banked write to $01, then seven `WriteIO`s. */
  function PowerOnWrites(b: Bus, now: int): (r: Bus)
    requires b.Valid()
    ensures r.Valid()
  {
    PortDefaults(VideoDefaults(BusWrite(b, 1, 0x37, now), now), now)
  }

  /**
   * After `InitMemory` the power-on values are in place, whatever was there
   * before, and RAM differs from before only in the processor port at $01.
   */
  lemma PowerOnSetsValues(b: Bus, now: int)
    requires b.Valid()
    ensures var r := PowerOnWrites(b, now);
      PowerOnValues(r) && r.ram == b.ram[1 := 0x37]
  {
  }

  /** A register the read hook declines reads back as stored. */
  lemma PlainRegister(b: Bus, addr: word)
    requires b.Valid() && InIoRange(addr) && !ReadHandled(addr)
    ensures Reg(b, addr) == b.io[addr - IoBase]
  {
  }

  /** $D011 = 27 (in its low seven bits): Y scroll 3, 25 rows, display on, text, no extended colour. */
  lemma ControlBits(control: byte)
    requires control % 0x80 == 27
    ensures control % 8 == 3 && Bit(control, 8) && Bit(control, 0x10) && !Bit(control, 0x20) && !Bit(control, 0x40)
  {
    var low := control % 0x80;
    assert control == 0x80 * (control / 0x80) + low;
    assert control / 8 == 0x10 * (control / 0x80) + low / 8;
    assert control / 0x10 == 8 * (control / 0x80) + low / 0x10;
    assert control / 0x20 == 4 * (control / 0x80) + low / 0x20;
    assert control / 0x40 == 2 * (control / 0x80) + low / 0x40;
  }

  /** $D018 = $14: character data at offset $1000, screen codes at $0400. */
  lemma MemoryBits()
    ensures And(0x14, 0xe) == 4 && And(0x14, 8) == 0 && And(0x14, 0xf0) == 0x10
  {
    CharBits();
    BitmapBits();
    ScreenBits();
  }

  lemma CharBits()
    ensures And(0x14, 0xe) == 4
  {
    assert And(2, 1) == 0;
    assert And(5, 3) == 1;
    assert And(10, 7) == 2;
  }

  lemma BitmapBits()
    ensures And(0x14, 8) == 0
  {
    assert And(2, 1) == 0;
    assert And(5, 2) == 0;
    assert And(10, 4) == 0;
  }

  lemma ScreenBits()
    ensures And(0x14, 0xf0) == 0x10
  {
    assert And(1, 15) == 1;
    assert And(2, 30) == 2;
    assert And(5, 60) == 4;
    assert And(10, 120) == 8;
  }

  /** The decoding of the power-on register values; only bits 0..6 of $D011 matter. */
  lemma PowerOnDecode(background: byte, border: byte, control: byte, mc1: byte, mc2: byte, mc3: byte)
    requires control % 0x80 == 27
    ensures var s := DecodeRegisters(background, border, control, 24, 3, 0x14, mc1, mc2, mc3);
      s.videoBank == 0 && s.screen == 0x400 && s.charData == 0x1000 &&
      s.yScroll == 3 && s.xScroll == 0 && !s.vBorders && !s.hBorders && s.displayEnable &&
      !s.bitmapMode && s.multiColor && !s.ebcMode
  {
    ControlBits(control);
    MemoryBits();
  }

  /**
   * With the power-on values the video chip shows a 25-row, 40-column text
   * screen in multicolour mode with the display enabled: bank 0, screen
   * codes at $0400, character data at $1000, Y scroll 3, X scroll 0.
   */
  lemma PowerOnScreen(b: Bus)
    requires b.Valid() && PowerOnValues(b)
    ensures var s := SetupOf(b);
      s.videoBank == 0 && s.screen == 0x400 && s.charData == 0x1000 &&
      s.yScroll == 3 && s.xScroll == 0 && !s.vBorders && !s.hBorders && s.displayEnable &&
      !s.bitmapMode && s.multiColor && !s.ebcMode
  {
    ControlBitsAsStored(b);
    PlainRegister(b, 0xd016);
    PlainRegister(b, 0xd018);
    PlainRegister(b, 0xdd00);
    PowerOnDecode(Reg(b, 0xd021), Reg(b, 0xd020), Reg(b, 0xd011), Reg(b, 0xd022), Reg(b, 0xd023), Reg(b, 0xd024));
  }

  // ---- the boot loader ----

  /** How `BootGame` ends after reading the file to its end: a faulted read is a thrown exception. */
  function Ended(status: Status): (c: Completion)
    ensures c == Normal <==> status == Complete
    ensures c == Threw <==> status == Faulted
  {
    match status
    case Complete => Normal
    case Faulted => Threw
    case OutOfFuel => NoFuel
  }

  /** The result of the load loop: the bus, the address after the last byte, and how the loop ended. */
  datatype Loaded = Loaded(bus: Bus, end: word, completion: Completion)

  /**
   * `while (bootFile.Open) _ram[address++] = ReadByte(bootFile)`: banked
   * writes at consecutive addresses, wrapping at $FFFF, with at most `fuel`
   * turns.
   */
  function LoadLoop(t: DiskType, data: seq<byte>, h: Handle, b: Bus, address: word, now: int, fuel: nat): (r: Loaded)
    requires b.Valid()
    ensures r.bus.Valid()
    decreases fuel
  {
    if !Open(h) then Loaded(b, address, Normal)
    else if fuel == 0 then Loaded(b, address, NoFuel)
    else
      var o := ReadStep(t, data, h);
      if o.value.None? then Loaded(b, address, Threw)
      else LoadLoop(t, data, o.handle, BusWrite(b, address, o.value.value, now), Wrap16(address + 1), now, fuel - 1)
  }

  /** Below the I/O area the banked write is a plain RAM store, whatever the port says. */
  lemma LowWrite(b: Bus, address: word, value: byte, now: int)
    requires b.Valid() && address < IoBase
    ensures BusWrite(b, address, value, now) == b.(ram := b.ram[address := value])
  {
  }

  /** One turn of the load loop: a byte read, stored below the I/O area, and the rest of the file after it. */
  lemma LoadTurn(t: DiskType, data: seq<byte>, h: Handle, b: Bus, address: word, now: int, fuel: nat)
    requires b.Valid() && Open(h) && fuel > 0 && address < IoBase
    requires ReadStep(t, data, h).value.Some?
    ensures var o := ReadStep(t, data, h);
      var v := o.value.value;
      var rest := ReadAll(t, data, o.handle, fuel - 1);
      ReadAll(t, data, h, fuel) == ([v] + rest.0, rest.1) &&
      LoadLoop(t, data, h, b, address, now, fuel) ==
        LoadLoop(t, data, o.handle, b.(ram := b.ram[address := v]), address + 1, now, fuel - 1)
  {
    var o := ReadStep(t, data, h);
    LowWrite(b, address, o.value.value, now);
  }

  /** Storing `v` at `address` and then `rest` after it is storing `[v] + rest` at `address`. */
  lemma SpliceStep(ram: seq<byte>, address: nat, v: byte, rest: seq<byte>)
    requires address + 1 + |rest| <= |ram|
    ensures var r1 := ram[address := v];
      r1[..address + 1] + rest + r1[address + 1 + |rest|..] == ram[..address] + ([v] + rest) + ram[address + 1 + |rest|..]
  {
    var r1 := ram[address := v];
    assert r1[..address + 1] == ram[..address] + [v];
    assert r1[address + 1 + |rest|..] == ram[address + 1 + |rest|..];
  }

  /**
   * `r` is the load loop's result after `file` was read from `address` on
   * into `b`: it ended as reading the file ended, with the address just
   * past the last byte, the bytes in place and nothing else changed.
   */
  ghost predicate Placed(b: Bus, r: Loaded, address: word, file: (seq<byte>, Status))
    requires b.Valid() && address + |file.0| <= RamSize
  {
    r.completion == Ended(file.1) && r.end == address + |file.0| && r.bus.io == b.io && r.bus.hooks == b.hooks &&
    r.bus.ram == b.ram[..address] + file.0 + b.ram[address + |file.0|..]
  }

  /**
   * A file that fits below the I/O area is copied byte for byte to the
   * load address.
   */
  lemma {:induction false} LoadPlacesFile(t: DiskType, data: seq<byte>, h: Handle, b: Bus, address: word, now: int,
                                          fuel: nat)
    requires b.Valid() && address + |ReadAll(t, data, h, fuel).0| <= IoBase
    ensures Placed(b, LoadLoop(t, data, h, b, address, now, fuel), address, ReadAll(t, data, h, fuel))
    decreases fuel
  {
    if Open(h) && fuel > 0 && ReadStep(t, data, h).value.Some? {
      var o := ReadStep(t, data, h);
      var v := o.value.value;
      var b1 := b.(ram := b.ram[address := v]);
      LoadTurn(t, data, h, b, address, now, fuel);
      LoadPlacesFile(t, data, o.handle, b1, address + 1, now, fuel - 1);
      PlacedStep(b, b1, address, v, LoadLoop(t, data, o.handle, b1, address + 1, now, fuel - 1),
                 ReadAll(t, data, o.handle, fuel - 1));
    } else {
      LoadPlacesNothing(t, data, h, b, address, now, fuel);
    }
  }

  /** A loop that stops before its first write places the empty file. */
  lemma LoadPlacesNothing(t: DiskType, data: seq<byte>, h: Handle, b: Bus, address: word, now: int, fuel: nat)
    requires b.Valid() && !(Open(h) && fuel > 0 && ReadStep(t, data, h).value.Some?)
    ensures ReadAll(t, data, h, fuel).0 == []
    ensures Placed(b, LoadLoop(t, data, h, b, address, now, fuel), address, ReadAll(t, data, h, fuel))
  {
    assert b.ram[..address] + [] + b.ram[address..] == b.ram;
  }

  /** A byte stored at `address` followed by the rest placed after it is the whole file placed at `address`. */
  lemma PlacedStep(b: Bus, b1: Bus, address: word, v: byte, r: Loaded, rest: (seq<byte>, Status))
    requires b.Valid() && b1 == b.(ram := b.ram[address := v]) && address + 1 + |rest.0| <= IoBase
    requires Placed(b1, r, address + 1, rest)
    ensures Placed(b, r, address, ([v] + rest.0, rest.1))
  {
    SpliceStep(b.ram, address, v, rest.0);
  }

  /**
   * After the load: the end address into $2D/$2E and $AE/$AF, then the
   * reset vector, copied from $032C/$032D (the CLALL vector, which an
   * autostarting program overwrites) when the load address is at most
   * $032C, otherwise $080D (the entry of `SYS 2061`).
   */
  function BootTail(b: Bus, load: word, end: word, now: int): (r: Bus)
    requires b.Valid()
    ensures r.Valid()
  {
    ResetVectorSet(EndPointers(b, end, now), load, now)
  }

  /** The end address stored at $2D/$2E and at $AE/$AF, low byte first. */
  function EndPointers(b: Bus, end: word, now: int): (r: Bus)
    requires b.Valid()
    ensures r.Valid()
  {
    var b1 := BusWrite(BusWrite(b, 0x2d, Lo(end), now), 0x2e, Hi(end), now);
    BusWrite(BusWrite(b1, 0xae, Lo(end), now), 0xaf, Hi(end), now)
  }

  /** The reset vector: the CLALL vector at $032C when the load address is at or below it, else $080D. */
  function ResetVectorSet(b: Bus, load: word, now: int): (r: Bus)
    requires b.Valid()
    ensures r.Valid()
  {
    if load <= 0x32c then
      var (lo, b1) := BusRead(b, 0x32c);
      var b2 := BusWrite(b1, 0xfffc, lo, now);
      var (hi, b3) := BusRead(b2, 0x32d);
      BusWrite(b3, 0xfffd, hi, now)
    else
      BusWrite(BusWrite(b, 0xfffc, 0x0d, now), 0xfffd, 0x08, now)
  }

  /** The addresses `BootTail` stores to. */
  predicate BootCell(a: int) {
    a == 0x2d || a == 0x2e || a == 0xae || a == 0xaf || a == 0xfffc || a == 0xfffd
  }

  /**
   * The end address lands in both zero page pairs, the reset vector is the
   * loaded CLALL vector or $080D, and every other byte of memory is as the
   * load left it: `r` is `b` after `BootTail`.
   */
  ghost predicate TailWritten(b: Bus, r: Bus, load: word, end: int)
    requires b.Valid() && r.Valid()
  {
    Word(r.ram[0x2d], r.ram[0x2e]) == end && Word(r.ram[0xae], r.ram[0xaf]) == end &&
    Word(r.ram[0xfffc], r.ram[0xfffd]) == (if load <= 0x32c then Word(b.ram[0x32c], b.ram[0x32d]) else 0x080d) &&
    r.io == b.io && r.hooks == b.hooks &&
    forall a :: 0 <= a < RamSize && !BootCell(a) ==> r.ram[a] == b.ram[a]
  }

  /** `BootTail` writes the vectors and pointers and nothing else. */
  lemma BootVectors(b: Bus, load: word, end: word, now: int)
    requires b.Valid()
    ensures TailWritten(b, BootTail(b, load, end, now), load, end)
  {
    var b4 := EndPointers(b, end, now);
    EndPointersStore(b, end, now);
    ResetVectorStore(b4, load, now);
    WordOfHalves(end);
  }

  /** The end pointers are four plain stores on the zero page. */
  lemma EndPointersStore(b: Bus, end: word, now: int)
    requires b.Valid()
    ensures EndPointers(b, end, now) == b.(ram := b.ram[0x2d := Lo(end)][0x2e := Hi(end)][0xae := Lo(end)][0xaf := Hi(end)])
  {
    LowWrite(b, 0x2d, Lo(end), now);
    var b1 := b.(ram := b.ram[0x2d := Lo(end)]);
    LowWrite(b1, 0x2e, Hi(end), now);
    var b2 := b1.(ram := b1.ram[0x2e := Hi(end)]);
    LowWrite(b2, 0xae, Lo(end), now);
    var b3 := b2.(ram := b2.ram[0xae := Lo(end)]);
    LowWrite(b3, 0xaf, Hi(end), now);
  }

  /** The reset vector is two plain stores at the top of memory. */
  lemma ResetVectorStore(b: Bus, load: word, now: int)
    requires b.Valid()
    ensures var (lo, hi) := if load <= 0x32c then (b.ram[0x32c], b.ram[0x32d]) else (0x0d, 0x08);
      ResetVectorSet(b, load, now) == b.(ram := b.ram[0xfffc := lo][0xfffd := hi])
  {
    var (lo, hi) := if load <= 0x32c then (b.ram[0x32c], b.ram[0x32d]) else (0x0d, 0x08);
    HighWrite(b, 0xfffc, lo, now);
    var b5 := b.(ram := b.ram[0xfffc := lo]);
    HighWrite(b5, 0xfffd, hi, now);
  }

  /** Above the I/O area the banked write is a plain RAM store as well. */
  lemma HighWrite(b: Bus, address: word, value: byte, now: int)
    requires b.Valid() && address >= IoBase + IoSize
    ensures BusWrite(b, address, value, now) == b.(ram := b.ram[address := value])
  {
  }

  /** What `BootGame` leaves behind: the bus and how it ended. */
  datatype Boot = Boot(bus: Bus, completion: Completion)

  /**
   * `BootGame` on disk image `data` of type `t`: open the first program
   * file of the directory (an unfinished search is `NoFuel`, a faulting
   * one throws, none found leaves memory alone), read the two-byte load
   * address (low byte first), copy the rest of the file from there, and
   * finish with `BootTail`. `now` is the cycle count the I/O hooks see.
   */
  function BootSpec(t: DiskType, data: seq<byte>, b: Bus, now: int, dirFuel: nat, loadFuel: nat): (r: Boot)
    requires b.Valid()
    ensures r.bus.Valid()
  {
    var (found, handle) := OpenResult(t, data, None, dirFuel);
    if found == Unfinished then Boot(b, NoFuel)
    else if found == Fault then Boot(b, Threw)
    else if handle.None? then Boot(b, Normal)
    else BootFrom(t, data, handle.value, b, now, loadFuel)
  }

  /** `BootGame` once the file is open at `h`: the two header reads, the copy, and `BootTail`. */
  function BootFrom(t: DiskType, data: seq<byte>, h: Handle, b: Bus, now: int, loadFuel: nat): (r: Boot)
    requires b.Valid()
    ensures r.bus.Valid()
  {
    var first := ReadStep(t, data, h);
    if first.value.None? then Boot(b, Threw)
    else
      var second := ReadStep(t, data, first.handle);
      if second.value.None? then Boot(b, Threw)
      else
        var load := Word(first.value.value, second.value.value);
        var loaded := LoadLoop(t, data, second.handle, b, load, now, loadFuel);
        if loaded.completion != Normal then Boot(loaded.bus, loaded.completion)
        else Boot(BootTail(loaded.bus, load, loaded.end, now), Normal)
  }

  /**
   * A file that reads to its end within `fuel + 2` bytes and has at least
   * two starts with the two header reads; the rest is what the load loop sees.
   */
  lemma HeaderSplit(t: DiskType, data: seq<byte>, h: Handle, fuel: nat)
    requires var file := ReadAll(t, data, h, fuel + 2); file.1 == Complete && |file.0| >= 2
    ensures var program := ReadAll(t, data, h, fuel + 2).0;
      var first := ReadStep(t, data, h);
      var second := ReadStep(t, data, first.handle);
      first.value == Some(program[0]) && second.value == Some(program[1]) &&
      ReadAll(t, data, second.handle, fuel) == (program[2..], Complete)
  {
    var first := ReadStep(t, data, h);
    var rest := ReadAll(t, data, first.handle, fuel + 1);
    assert ReadAll(t, data, h, fuel + 2) == ([first.value.value] + rest.0, rest.1);
    var second := ReadStep(t, data, first.handle);
    var tail := ReadAll(t, data, second.handle, fuel);
    assert rest == ([second.value.value] + tail.0, tail.1);
    assert ReadAll(t, data, h, fuel + 2).0 == [first.value.value] + ([second.value.value] + tail.0);
    assert ([first.value.value] + ([second.value.value] + tail.0))[2..] == tail.0;
  }

  /** Where the loaded bytes are in the spliced RAM, and that the rest is the old RAM. */
  lemma SpliceIndex(ram: seq<byte>, load: nat, bytes: seq<byte>)
    requires load + |bytes| <= |ram|
    ensures var r := ram[..load] + bytes + ram[load + |bytes|..];
      |r| == |ram| &&
      (forall a :: load <= a < load + |bytes| ==> r[a] == bytes[a - load]) &&
      (forall a :: 0 <= a < |ram| && !(load <= a < load + |bytes|) ==> r[a] == ram[a])
  {
  }

  /**
   * `r` is memory `b` after booting a program whose bytes after the header
   * are `bytes`, loaded at `load`: the bytes lie from `load` on, both end
   * pointers hold the address after them, the reset vector is the CLALL
   * vector as loaded (load address at most $032C) or $080D, and no other
   * byte of RAM or of the I/O area has changed.
   */
  ghost predicate Booted(b: Bus, r: Bus, load: word, bytes: seq<byte>)
    requires b.Valid() && r.Valid()
  {
    var end := load + |bytes|;
    r.io == b.io && r.hooks == b.hooks &&
    Word(r.ram[0x2d], r.ram[0x2e]) == end && Word(r.ram[0xae], r.ram[0xaf]) == end &&
    Word(r.ram[0xfffc], r.ram[0xfffd]) == (if load <= 0x32c then Word(r.ram[0x32c], r.ram[0x32d]) else 0x080d) &&
    (forall a :: load <= a < end && !BootCell(a) ==> r.ram[a] == bytes[a - load]) &&
    (forall a :: 0 <= a < RamSize && !(load <= a < end) && !BootCell(a) ==> r.ram[a] == b.ram[a])
  }

  /** `Booted` from what `BootVectors` says about a tail written over a placed file. */
  lemma PlacedThenTail(b: Bus, loaded: Bus, r: Bus, load: word, bytes: seq<byte>)
    requires b.Valid() && loaded.Valid() && r.Valid() && load + |bytes| <= IoBase
    requires loaded.io == b.io && loaded.hooks == b.hooks
    requires loaded.ram == b.ram[..load] + bytes + b.ram[load + |bytes|..]
    requires TailWritten(loaded, r, load, load + |bytes|)
    ensures Booted(b, r, load, bytes)
  {
    SpliceIndex(b.ram, load, bytes);
    assert r.ram[0x32c] == loaded.ram[0x32c] && r.ram[0x32d] == loaded.ram[0x32d];
  }

  /** A boot that finds a file starts from its handle. */
  lemma BootOpens(t: DiskType, data: seq<byte>, b: Bus, now: int, dirFuel: nat, loadFuel: nat, h: Handle)
    requires b.Valid() && OpenResult(t, data, None, dirFuel).1 == Some(h)
    ensures BootSpec(t, data, b, now, dirFuel, loadFuel) == BootFrom(t, data, h, b, now, loadFuel)
  {
  }

  /** A boot whose header reads succeed and whose load loop ends normally finishes with `BootTail`. */
  lemma BootEndsWithTail(t: DiskType, data: seq<byte>, b: Bus, now: int, loadFuel: nat,
                         h: Handle, lo: byte, hi: byte, rest: Handle)
    requires b.Valid()
    requires ReadStep(t, data, h).value == Some(lo)
    requires ReadStep(t, data, ReadStep(t, data, h).handle) == ReadOutcome(Some(hi), rest)
    requires LoadLoop(t, data, rest, b, Word(lo, hi), now, loadFuel).completion == Normal
    ensures var loaded := LoadLoop(t, data, rest, b, Word(lo, hi), now, loadFuel);
      BootFrom(t, data, h, b, now, loadFuel) == Boot(BootTail(loaded.bus, Word(lo, hi), loaded.end, now), Normal)
  {
  }

  /**
   * Booting a program file that reads to its end and fits below $D000
   * places it as `Booted` describes, the load address being its first two
   * bytes (low byte first).
   */
  lemma BootPlacesProgram(t: DiskType, data: seq<byte>, b: Bus, now: int, dirFuel: nat, loadFuel: nat,
                          h: Handle, program: seq<byte>)
    requires b.Valid() && OpenResult(t, data, None, dirFuel).1 == Some(h)
    requires ReadAll(t, data, h, loadFuel + 2) == (program, Complete)
    requires |program| >= 2 && Word(program[0], program[1]) + |program| - 2 <= IoBase
    ensures var r := BootSpec(t, data, b, now, dirFuel, loadFuel);
      r.completion == Normal && Booted(b, r.bus, Word(program[0], program[1]), program[2..])
  {
    BootOpens(t, data, b, now, dirFuel, loadFuel, h);
    BootFromPlacesProgram(t, data, b, now, loadFuel, h, program);
  }

  /** The same, from the file's handle on. */
  lemma BootFromPlacesProgram(t: DiskType, data: seq<byte>, b: Bus, now: int, loadFuel: nat,
                              h: Handle, program: seq<byte>)
    requires b.Valid()
    requires ReadAll(t, data, h, loadFuel + 2) == (program, Complete)
    requires |program| >= 2 && Word(program[0], program[1]) + |program| - 2 <= IoBase
    ensures var r := BootFrom(t, data, h, b, now, loadFuel);
      r.completion == Normal && Booted(b, r.bus, Word(program[0], program[1]), program[2..])
  {
    HeaderSplit(t, data, h, loadFuel);
    var first := ReadStep(t, data, h);
    var second := ReadStep(t, data, first.handle);
    var load := Word(program[0], program[1]);
    var bytes := program[2..];
    LoadPlacesFile(t, data, second.handle, b, load, now, loadFuel);
    var loaded := LoadLoop(t, data, second.handle, b, load, now, loadFuel);
    BootEndsWithTail(t, data, b, now, loadFuel, h, program[0], program[1], second.handle);
    var tail := BootTail(loaded.bus, load, load + |bytes|, now);
    BootVectors(loaded.bus, load, load + |bytes|, now);
    PlacedThenTail(b, loaded.bus, tail, load, bytes);
    var r := BootFrom(t, data, h, b, now, loadFuel);
    BootedTransfers(b, tail, r.bus, load, bytes);
  }

  /** `Booted` is about the resulting memory only. */
  lemma BootedTransfers(b: Bus, r1: Bus, r2: Bus, load: word, bytes: seq<byte>)
    requires b.Valid() && r1.Valid() && r1 == r2 && Booted(b, r1, load, bytes)
    ensures Booted(b, r2, load, bytes)
  {
  }

  // ---- the frame ----

  /** The emulator as a value: the processor and its bus, the trap handler's files, the video chip. */
  datatype Snapshot = Snapshot(m: Machine, files: Files, vic: VicState)
  {
    predicate Valid() {
      m.Valid() && vic.Valid()
    }
  }

  /** A snapshot and how the run that produced it ended. */
  datatype Run = Run(s: Snapshot, completion: Completion)

  /**
   * The `for` loops of `FixedUpdate`: `ExecuteLine` for the lines `from`
   * up to `to`, stopping at the first that does not end normally.
   */
  function LinesSpec(s: Snapshot, traps: Option<TrapContext>, from: nat, to: nat, visible: bool, dirFuel: nat,
                     steps: nat): (r: Run)
    requires s.Valid()
    ensures r.s.Valid()
    decreases (if from < to then to - from else 0), 2
  {
    if from >= to then Run(s, Normal)
    else RunThenDraw(s, traps, from, to, visible, dirFuel, steps)
  }

  /**
   * `ExecuteLine(from)`: the line counter and the processor loop up to the
   * line's cycle target; unless that ends in an exception or out of steps,
   * the drawing and the lines after it.
   */
  function RunThenDraw(s: Snapshot, traps: Option<TrapContext>, from: nat, to: nat, visible: bool, dirFuel: nat,
                       steps: nat): (r: Run)
    requires s.Valid() && from < to
    ensures r.s.Valid()
    decreases (to - from), 1
  {
    var run := RunLine(LineStart(s.m, from), s.files, traps, CyclesPerLine * from, dirFuel, steps);
    if run.completion != Normal then Run(Snapshot(run.m, run.files, s.vic), run.completion)
    else DrawThenRest(Snapshot(run.m, run.files, s.vic), traps, from, to, visible, dirFuel, steps)
  }

  /** The end of `ExecuteLine(from)`: `RenderNextLine` when the line is visible; then the lines after it. */
  function DrawThenRest(s: Snapshot, traps: Option<TrapContext>, from: nat, to: nat, visible: bool, dirFuel: nat,
                        steps: nat): (r: Run)
    requires s.Valid() && from < to
    ensures r.s.Valid()
    decreases (to - from), 0
  {
    var vic := if visible then RenderSpec(s.vic, s.m.bus) else s.vic;
    LinesSpec(s.(vic := vic), traps, from + 1, to, visible, dirFuel, steps)
  }

  /** `ExecuteLine(line)` alone. */
  function LineSpec(s: Snapshot, traps: Option<TrapContext>, line: nat, visible: bool, dirFuel: nat, steps: nat): (r: Run)
    requires s.Valid()
    ensures r.s.Valid()
  {
    LinesSpec(s, traps, line, line + 1, visible, dirFuel, steps)
  }

  /**
   * One line in full: the processor loop, then, when it ends normally, the
   * screen line drawn from memory as the processor left it.
   */
  lemma LineSteps(s: Snapshot, traps: Option<TrapContext>, line: nat, visible: bool, dirFuel: nat, steps: nat)
    requires s.Valid()
    ensures var run := RunLine(LineStart(s.m, line), s.files, traps, CyclesPerLine * line, dirFuel, steps);
      LineSpec(s, traps, line, visible, dirFuel, steps) ==
        if run.completion != Normal then Run(Snapshot(run.m, run.files, s.vic), run.completion)
        else Run(Snapshot(run.m, run.files, if visible then RenderSpec(s.vic, run.m.bus) else s.vic), Normal)
  {
    var run := RunLine(LineStart(s.m, line), s.files, traps, CyclesPerLine * line, dirFuel, steps);
    assert LineSpec(s, traps, line, visible, dirFuel, steps) == RunThenDraw(s, traps, line, line + 1, visible, dirFuel, steps);
    if run.completion == Normal {
      var t := Snapshot(run.m, run.files, s.vic);
      var vic := if visible then RenderSpec(s.vic, run.m.bus) else s.vic;
      assert RunThenDraw(s, traps, line, line + 1, visible, dirFuel, steps) == DrawThenRest(t, traps, line, line + 1, visible, dirFuel, steps);
      assert DrawThenRest(t, traps, line, line + 1, visible, dirFuel, steps) == Run(t.(vic := vic), Normal);
    }
  }

  /** The first of the lines `from` up to `to`, and the rest after it unless it did not end normally. */
  lemma LinesStep(s: Snapshot, traps: Option<TrapContext>, from: nat, next: nat, to: nat, visible: bool,
                  dirFuel: nat, steps: nat)
    requires s.Valid() && from < to && next == from + 1
    ensures var r := LineSpec(s, traps, from, visible, dirFuel, steps);
      LinesSpec(s, traps, from, to, visible, dirFuel, steps) ==
        (if r.completion != Normal then r else LinesSpec(r.s, traps, next, to, visible, dirFuel, steps))
  {
    LineSteps(s, traps, from, visible, dirFuel, steps);
    var run := RunLine(LineStart(s.m, from), s.files, traps, CyclesPerLine * from, dirFuel, steps);
    if run.completion == Normal {
      var t := Snapshot(run.m, run.files, s.vic);
      var vic := if visible then RenderSpec(s.vic, run.m.bus) else s.vic;
      assert DrawThenRest(t, traps, from, to, visible, dirFuel, steps) == LinesSpec(t.(vic := vic), traps, from + 1, to, visible, dirFuel, steps);
    }
  }

  /** `Cycles = 0` and `_audioCycles = 0` at the start of a frame. */
  function FrameReset(m: Machine): (m': Machine)
    requires m.Valid()
    ensures m'.Valid()
  {
    var bus := if m.bus.hooks.None? then m.bus
               else m.bus.(hooks := Some(m.bus.hooks.value.(latch := m.bus.hooks.value.latch.(audioCycles := 0))));
    Machine(m.regs.(cycles := 0), bus)
  }

  /**
   * The end of `FixedUpdate`: when the audio mark is behind the frame's last
   * cycle, the SID renders the cycles in between with the registers as they
   * stand in the I/O shadow, and the mark moves to the frame's end.
   */
  function FlushedAudio(m: Machine): (m': Machine)
    requires m.Valid()
    ensures m'.Valid()
  {
    if m.bus.hooks.None? || m.bus.hooks.value.latch.audioCycles >= FrameCycles then m
    else
      var p := m.bus.hooks.value;
      var p' := p.(latch := p.latch.(audioCycles := FrameCycles),
                   voices := BufferSpec(p.voices, SidRegisters(m.bus.io), FrameCycles - p.latch.audioCycles));
      m.(bus := m.bus.(hooks := Some(p')))
  }

  /**
   * The frame-end flush touches only the sound side: when the mark is
   * behind, the three voices are loaded from the SID registers in the I/O
   * shadow and run for exactly the cycles up to 19656, and the mark ends at
   * the later of itself and the frame's end; the other latches, the input
   * ports, the registers and memory stay.
   */
  lemma FrameEndAudio(m: Machine)
    requires m.Valid()
    ensures var m' := FlushedAudio(m);
      m'.regs == m.regs && m'.bus.ram == m.bus.ram && m'.bus.io == m.bus.io &&
      m'.bus.hooks.Some? == m.bus.hooks.Some?
    ensures m.bus.hooks.Some? ==>
      var (p, p') := (m.bus.hooks.value, FlushedAudio(m).bus.hooks.value);
      p'.latch == p.latch.(audioCycles := Max(p.latch.audioCycles, FrameCycles)) &&
      p'.joystick == p.joystick && p'.keyMatrix == p.keyMatrix &&
      p'.voices == if p.latch.audioCycles < FrameCycles
                   then SoundChip.Run(LoadAll(p.voices, SidRegisters(m.bus.io)), FrameCycles - p.latch.audioCycles)
                   else p.voices
  {
  }

  /** A second flush at the frame's end renders nothing more. */
  lemma FlushedAudioIdempotent(m: Machine)
    requires m.Valid()
    ensures FlushedAudio(FlushedAudio(m)) == FlushedAudio(m)
  {
  }

  /**
   * `FixedUpdate`: lines 0..49 unseen, `BeginFrame`, lines 50..249 drawn,
   * lines 250..311 unseen, then the audio flush. An exception or running
   * out of steps ends the frame where it happens.
   */
  function FrameSpec(s: Snapshot, traps: Option<TrapContext>, dirFuel: nat, steps: nat): (r: Run)
    requires s.Valid()
    ensures r.s.Valid()
  {
    var r1 := LinesSpec(s.(m := FrameReset(s.m)), traps, 0, FirstVisibleLine, false, dirFuel, steps);
    if r1.completion != Normal then r1 else ScreenSpec(r1.s, traps, dirFuel, steps)
  }

  /** The frame from `BeginFrame` on: lines 50..249 drawn, then the lower border. */
  function ScreenSpec(s: Snapshot, traps: Option<TrapContext>, dirFuel: nat, steps: nat): (r: Run)
    requires s.Valid()
    ensures r.s.Valid()
  {
    var begun := s.(vic := s.vic.(raster := FrameStart, active := seq(8, _ => false)));
    var r2 := LinesSpec(begun, traps, FirstVisibleLine, FirstInvisibleLine, true, dirFuel, steps);
    if r2.completion != Normal then r2 else BorderSpec(r2.s, traps, dirFuel, steps)
  }

  /** The frame after the screen: lines 250..311 unseen, then the audio flush. */
  function BorderSpec(s: Snapshot, traps: Option<TrapContext>, dirFuel: nat, steps: nat): (r: Run)
    requires s.Valid()
    ensures r.s.Valid()
  {
    var r3 := LinesSpec(s, traps, FirstInvisibleLine, LinesPerFrame, false, dirFuel, steps);
    if r3.completion != Normal then r3 else Run(r3.s.(m := FlushedAudio(r3.s.m)), Normal)
  }

  /** Lines the screen does not show leave the video chip alone. */
  lemma {:induction false} UnseenLinesKeepScreen(s: Snapshot, traps: Option<TrapContext>, from: nat, to: nat,
                                                 dirFuel: nat, steps: nat)
    requires s.Valid()
    ensures LinesSpec(s, traps, from, to, false, dirFuel, steps).s.vic == s.vic
    decreases if from < to then to - from else 0
  {
    if from < to {
      var run := RunLine(LineStart(s.m, from), s.files, traps, CyclesPerLine * from, dirFuel, steps);
      if run.completion == Normal {
        var t := Snapshot(run.m, run.files, s.vic);
        assert DrawThenRest(t, traps, from, to, false, dirFuel, steps) == LinesSpec(t, traps, from + 1, to, false, dirFuel, steps);
        UnseenLinesKeepScreen(t, traps, from + 1, to, dirFuel, steps);
      }
    }
  }

  /**
   * Visible lines from `from` up to `to` (`left` of them), with the chip's
   * line counter at `from - 50`, each draw one screen line: when they all
   * end normally the counter is at `to - 50`.
   */
  lemma {:induction false} SeenLinesDrawInOrder(s: Snapshot, traps: Option<TrapContext>, from: nat, to: nat, left: nat,
                                                dirFuel: nat, steps: nat)
    requires s.Valid() && to <= FirstInvisibleLine && to == from + left
    requires FirstVisibleLine + s.vic.raster.lineNum == from
    ensures var r := LinesSpec(s, traps, from, to, true, dirFuel, steps);
      r.completion == Normal ==> FirstVisibleLine + r.s.vic.raster.lineNum == to
    decreases left, 1
  {
    if left > 0 {
      var run := RunLine(LineStart(s.m, from), s.files, traps, CyclesPerLine * from, dirFuel, steps);
      if run.completion == Normal {
        SeenLineDrawsInOrder(Snapshot(run.m, run.files, s.vic), traps, from, to, left, dirFuel, steps);
      }
    }
  }

  /** The drawing half of `SeenLinesDrawInOrder`: the line `from` moves the counter on by one, then the rest. */
  lemma {:induction false} SeenLineDrawsInOrder(t: Snapshot, traps: Option<TrapContext>, from: nat, to: nat, left: nat,
                                                dirFuel: nat, steps: nat)
    requires t.Valid() && to <= FirstInvisibleLine && to == from + left && left > 0
    requires FirstVisibleLine + t.vic.raster.lineNum == from
    ensures var r := DrawThenRest(t, traps, from, to, true, dirFuel, steps);
      r.completion == Normal ==> FirstVisibleLine + r.s.vic.raster.lineNum == to
    decreases left, 0
  {
    var u := t.(vic := RenderSpec(t.vic, t.m.bus));
    SeenLinesDrawInOrder(u, traps, from + 1, to, left - 1, dirFuel, steps);
  }

  /** A run of lines that ends normally ends at or past the last line's cycle target, or jammed. */
  lemma {:induction false} LinesReachTarget(s: Snapshot, traps: Option<TrapContext>, from: nat, to: nat, left: nat,
                                            visible: bool, dirFuel: nat, steps: nat)
    requires s.Valid() && to == from + left + 1
    ensures var r := LinesSpec(s, traps, from, to, visible, dirFuel, steps);
      r.completion == Normal ==> (r.s.m.regs.cycles >= CyclesPerLine * (to - 1) || r.s.m.regs.jam)
    decreases left
  {
    var run := RunLine(LineStart(s.m, from), s.files, traps, CyclesPerLine * from, dirFuel, steps);
    LineReachesTarget(LineStart(s.m, from), s.files, traps, CyclesPerLine * from, dirFuel, steps);
    if run.completion == Normal {
      var t := Snapshot(run.m, run.files, s.vic);
      var u := t.(vic := if visible then RenderSpec(s.vic, run.m.bus) else s.vic);
      assert DrawThenRest(t, traps, from, to, visible, dirFuel, steps) == LinesSpec(u, traps, from + 1, to, visible, dirFuel, steps);
      if left > 0 {
        LinesReachTarget(u, traps, from + 1, to, left - 1, visible, dirFuel, steps);
      }
    }
  }

  /**
   * A frame that ends normally has drawn all 200 screen lines, has run the
   * processor to the cycle of the last raster line (63 * 311) unless it
   * jammed, and has rendered audio up to the frame's 19656 cycles.
   */
  lemma FrameDrawsScreen(s: Snapshot, traps: Option<TrapContext>, dirFuel: nat, steps: nat)
    requires s.Valid()
    ensures var r := FrameSpec(s, traps, dirFuel, steps);
      r.completion == Normal ==>
        r.s.vic.raster.lineNum == ScreenHeight &&
        (r.s.m.regs.cycles >= CyclesPerLine * (LinesPerFrame - 1) || r.s.m.regs.jam) &&
        (r.s.m.bus.hooks.Some? ==> r.s.m.bus.hooks.value.latch.audioCycles >= FrameCycles)
  {
    var r1 := LinesSpec(s.(m := FrameReset(s.m)), traps, 0, FirstVisibleLine, false, dirFuel, steps);
    if r1.completion == Normal {
      ScreenDrawn(r1.s, traps, dirFuel, steps);
    }
  }

  /** From `BeginFrame` on, a frame that ends normally has drawn all 200 lines of the screen. */
  lemma ScreenDrawn(s: Snapshot, traps: Option<TrapContext>, dirFuel: nat, steps: nat)
    requires s.Valid()
    ensures var r := ScreenSpec(s, traps, dirFuel, steps);
      r.completion == Normal ==>
        r.s.vic.raster.lineNum == ScreenHeight &&
        (r.s.m.regs.cycles >= CyclesPerLine * (LinesPerFrame - 1) || r.s.m.regs.jam) &&
        (r.s.m.bus.hooks.Some? ==> r.s.m.bus.hooks.value.latch.audioCycles >= FrameCycles)
  {
    var begun := s.(vic := s.vic.(raster := FrameStart, active := seq(8, _ => false)));
    SeenLinesDrawInOrder(begun, traps, FirstVisibleLine, FirstInvisibleLine, ScreenHeight, dirFuel, steps);
    var r2 := LinesSpec(begun, traps, FirstVisibleLine, FirstInvisibleLine, true, dirFuel, steps);
    if r2.completion == Normal {
      BorderFinishes(r2.s, traps, dirFuel, steps);
    }
  }

  /**
   * The lower border leaves the screen alone and, when it ends normally,
   * ends on the frame's last line with the audio rendered to the frame's end.
   */
  lemma BorderFinishes(s: Snapshot, traps: Option<TrapContext>, dirFuel: nat, steps: nat)
    requires s.Valid()
    ensures var r := BorderSpec(s, traps, dirFuel, steps);
      r.s.vic == s.vic &&
      (r.completion == Normal ==>
        (r.s.m.regs.cycles >= CyclesPerLine * (LinesPerFrame - 1) || r.s.m.regs.jam) &&
        (r.s.m.bus.hooks.Some? ==> r.s.m.bus.hooks.value.latch.audioCycles >= FrameCycles))
  {
    UnseenLinesKeepScreen(s, traps, FirstInvisibleLine, LinesPerFrame, dirFuel, steps);
    LinesReachTarget(s, traps, FirstInvisibleLine, LinesPerFrame, LinesPerFrame - FirstInvisibleLine - 1, false,
                     dirFuel, steps);
  }

  // ---- the emulator object ----

  /**
   * `Emulator`: the memory with the I/O hooks registered, the disk image,
   * the KERNAL trap handler, the processor and the video chip, all wired to
   * the one memory.
   */
  class Emulator {
    const hooks: IoHooks
    const ram: Ram64K
    const disk: DiskImage
    const traps: KernalTraps
    const processor: Mos6502
    const vic2: Vic2

    ghost predicate Valid()
      reads this, ram, hooks, hooks.sid, hooks.sid.channels, processor, traps, vic2
    {
      ram.hooks == hooks && processor.ram == ram && processor.traps == traps && traps.ram == ram &&
      traps.disk == disk && vic2.ram == ram &&
      ram.Valid() && hooks.Valid() && disk.Valid() && vic2.Valid()
    }

    /** What the frame functions describe: the machine, the files of the trap handler, and the video chip. */
    function Snap(): (s: Snapshot)
      reads this, ram, ram.ram, ram.ioRam, ram.hooks, processor, traps, traps.fileHandle, vic2
      reads if ram.hooks == null then {} else {ram.hooks.sid}, if ram.hooks == null then [] else ram.hooks.sid.channels
      reads vic2.pixels, vic2.lineChars, vic2.lineColors, vic2.spriteActive, vic2.spriteRow
      requires processor.ram == ram && processor.traps == traps && ram.Valid() && vic2.Valid()
      ensures s.Valid()
    {
      Snapshot(processor.State(), processor.FilesOf(), vic2.State())
    }

    /**
     * The allocations of `Awake`: memory with `HandleIORead`/`HandleIOWrite`
     * registered, the processor with `HandleKernalTrap` registered, the
     * video chip, and the disk image from `asset`.
     */
    constructor (asset: Option<seq<byte>>)
      ensures Valid() && fresh(hooks) && fresh(ram) && fresh(traps) && fresh(processor) && fresh(vic2)
      ensures processor.regs.reset && traps.State() == Files(None, None)
      ensures hooks.LatchState() == Latch(0, 0, false, false, false, 0)
    {
      var h := new IoHooks();
      var memory := new Ram64K(h);
      var image := new DiskImage(asset);
      var handler := new KernalTraps(memory, image);
      hooks := h;
      ram := memory;
      disk := image;
      traps := handler;
      processor := new Mos6502(memory, handler);
      vic2 := new Vic2(memory);
    }

    /** `InitMemory`, with the I/O writes stamped at the processor's cycle count. */
    method InitMemory()
      requires Valid()
      modifies ram.ram, ram.ioRam, hooks, hooks.sid.channels
      ensures Valid()
      ensures ram.State() == PowerOnWrites(old(ram.State()), processor.regs.cycles)
    {
      var now := processor.regs.cycles;
      PowerOnStores(now);
      ValidKept();
    }

    /** The eight stores of `InitMemory`, at time `now`. */
    method PowerOnStores(now: int)
      requires ram.Valid() && ram.hooks == hooks && hooks.Valid()
      modifies ram.ram, ram.ioRam, hooks, hooks.sid.channels
      ensures ram.Valid() && hooks.Valid()
      ensures ram.State() == PowerOnWrites(old(ram.State()), now)
    {
      ghost var b0 := ram.State();
      ram.Write(1, 0x37, now);
      ghost var b1 := ram.State();
      assert b1 == BusWrite(b0, 1, 0x37, now);
      WriteVideoDefaults(now);
      ghost var b2 := ram.State();
      assert b2 == VideoDefaults(b1, now);
      WritePortDefaults(now);
    }

    /** Stores through memory leave the wiring, the image and the video chip's registers alone. */
    twostate lemma ValidKept()
      requires old(Valid()) && ram.Valid() && hooks.Valid() && unchanged(vic2, disk)
      ensures Valid()
    {
    }

    method WriteVideoDefaults(now: int)
      requires ram.Valid() && ram.hooks == hooks && hooks.Valid()
      modifies ram.ram, ram.ioRam, hooks, hooks.sid.channels
      ensures hooks.Valid()
      ensures ram.State() == VideoDefaults(old(ram.State()), now)
    {
      ram.WriteIO(0xd018, 0x14, now);
      ram.WriteIO(0xd011, 27, now);
      ram.WriteIO(0xd016, 24, now);
    }

    method WritePortDefaults(now: int)
      requires ram.Valid() && ram.hooks == hooks && hooks.Valid()
      modifies ram.ram, ram.ioRam, hooks, hooks.sid.channels
      ensures hooks.Valid()
      ensures ram.State() == PortDefaults(old(ram.State()), now)
    {
      ram.WriteIO(0xdd00, 3, now);
      ram.WriteIO(0xd030, 0xff, now);
      ram.WriteIO(0xd0bc, 0xff, now);
      ram.WriteIO(0xdc00, 0xff, now);
    }
  
    /**
     * `BootGame`: the first program file of the disk image is copied to the
     * load address in its first two bytes, the end address goes to $2D/$2E
     * and $AE/$AF, and the reset vector is set for autostart.
     */
    method BootGame(dirFuel: nat, loadFuel: nat) returns (completion: Completion)
      requires Valid()
      modifies ram.ram, ram.ioRam, hooks, hooks.sid.channels
      ensures Valid()
      ensures Boot(ram.State(), completion) ==
        BootSpec(disk.diskType, disk.data, old(ram.State()), processor.regs.cycles, dirFuel, loadFuel)
    {
      var found, bootFile := disk.OpenFile(None, dirFuel);
      if found == Unfinished {
        return NoFuel;
      } else if found == Fault {
        return Threw;
      } else if bootFile == null {
        return Normal;
      }
      completion := BootFromFile(bootFile, loadFuel);
    }

    /** `BootGame` once the boot file is open: the load address, the copy, and the pointers. */
    method BootFromFile(bootFile: FileHandle, loadFuel: nat) returns (completion: Completion)
      requires ram.Valid() && ram.hooks == hooks && hooks.Valid() && disk.Valid()
      modifies ram.ram, ram.ioRam, hooks, hooks.sid.channels, bootFile
      ensures hooks.Valid()
      ensures Boot(ram.State(), completion) ==
        BootFrom(disk.diskType, disk.data, old(bootFile.Value()), old(ram.State()), processor.regs.cycles, loadFuel)
    {
      var lo, ok := disk.ReadByte(bootFile);
      if !ok {
        return Threw;
      }
      var hi, ok2 := disk.ReadByte(bootFile);
      if !ok2 {
        return Threw;
      }
      var load := Word(lo, hi);
      var end;
      end, completion := LoadFile(bootFile, load, processor.regs.cycles, loadFuel);
      if completion == Normal {
        SetEndPointers(end);
        SetResetVector(load);
      }
    }

    /** The copy loop of `BootGame`, at most `fuel` bytes, the stores stamped `now`. */
    method LoadFile(bootFile: FileHandle, load: word, now: int, fuel: nat) returns (end: word, completion: Completion)
      requires ram.Valid() && ram.hooks == hooks && hooks.Valid() && disk.Valid()
      modifies ram.ram, ram.ioRam, hooks, hooks.sid.channels, bootFile
      ensures hooks.Valid()
      ensures Loaded(ram.State(), end, completion) ==
        LoadLoop(disk.diskType, disk.data, old(bootFile.Value()), old(ram.State()), load, now, fuel)
    {
      ghost var t, d := disk.diskType, disk.data;
      end := load;
      var left := fuel;
      while bootFile.track != 0
        invariant ram.Valid() && hooks.Valid()
        invariant LoadLoop(t, d, bootFile.Value(), ram.State(), end, now, left) ==
          LoadLoop(t, d, old(bootFile.Value()), old(ram.State()), load, now, fuel)
        decreases left
      {
        if left == 0 {
          return end, NoFuel;
        }
        ghost var h0, b0 := bootFile.Value(), ram.State();
        var ok := LoadByte(bootFile, end, now);
        if !ok {
          return end, Threw;
        }
        ghost var o := ReadStep(t, d, h0);
        assert LoadLoop(t, d, h0, b0, end, now, left) ==
          LoadLoop(t, d, o.handle, BusWrite(b0, end, o.value.value, now), Wrap16(end + 1), now, left - 1);
        end := Wrap16(end + 1);
        left := left - 1;
      }
      completion := Normal;
    }

    /** One turn of the copy loop: a byte read from the open file and stored at `address`. */
    method LoadByte(bootFile: FileHandle, address: word, now: int) returns (ok: bool)
      requires ram.Valid() && ram.hooks == hooks && hooks.Valid() && disk.Valid()
      modifies ram.ram, ram.ioRam, hooks, hooks.sid.channels, bootFile
      ensures ram.Valid() && hooks.Valid()
      ensures var o := ReadStep(disk.diskType, disk.data, old(bootFile.Value()));
        bootFile.Value() == o.handle && (ok <==> o.value.Some?) &&
        ram.State() == if ok then BusWrite(old(ram.State()), address, o.value.value, now) else old(ram.State())
    {
      var v;
      v, ok := disk.ReadByte(bootFile);
      if ok {
        ram.Write(address, v, now);
      }
    }

    /** The end address twice, on the zero page. */
    method SetEndPointers(end: word)
      requires ram.Valid() && ram.hooks == hooks && hooks.Valid()
      modifies ram.ram, ram.ioRam, hooks, hooks.sid.channels
      ensures hooks.Valid()
      ensures ram.State() == EndPointers(old(ram.State()), end, processor.regs.cycles)
    {
      var now := processor.regs.cycles;
      ram.Write(0x2d, Lo(end), now);
      ram.Write(0x2e, Hi(end), now);
      ram.Write(0xae, Lo(end), now);
      ram.Write(0xaf, Hi(end), now);
    }

    /** The reset vector for autostart. */
    method SetResetVector(load: word)
      requires ram.Valid() && ram.hooks == hooks && hooks.Valid()
      modifies ram.ram, ram.ioRam, hooks, hooks.sid.channels
      ensures hooks.Valid()
      ensures ram.State() == ResetVectorSet(old(ram.State()), load, processor.regs.cycles)
    {
      var now := processor.regs.cycles;
      if load <= 0x32c {
        var lo := ram.Read(0x32c);
        ram.Write(0xfffc, lo, now);
        var hi := ram.Read(0x32d);
        ram.Write(0xfffd, hi, now);
      } else {
        ram.Write(0xfffc, 0x0d, now);
        ram.Write(0xfffd, 0x08, now);
      }
    }

    /** One turn of the `ExecuteLine` loop: `SetIRQ` from the interrupt flags, then `Process`. */
    method RunTurn(dirFuel: nat) returns (completion: Completion)
      requires Valid()
      modifies processor, ram.ram, ram.ioRam, hooks, hooks.sid.channels, traps, traps.fileHandle
      ensures Valid()
      ensures Step(processor.State(), processor.FilesOf(), completion) ==
        ProcessSpec(WithIrq(old(processor.State())), old(processor.FilesOf()), processor.Context(), dirFuel)
      ensures traps.fileHandle == null || traps.fileHandle == old(traps.fileHandle) || fresh(traps.fileHandle)
    {
      RaiseIrq();
      completion := Serve(dirFuel);
    }

    /** `Process` with its two cases put together as `ProcessSpec`. */
    method Serve(dirFuel: nat) returns (completion: Completion)
      requires Valid()
      modifies processor, ram.ram, ram.ioRam, hooks, hooks.sid.channels, traps, traps.fileHandle
      ensures Valid()
      ensures Step(processor.State(), processor.FilesOf(), completion) ==
        ProcessSpec(old(processor.State()), old(processor.FilesOf()), processor.Context(), dirFuel)
      ensures traps.fileHandle == null || traps.fileHandle == old(traps.fileHandle) || fresh(traps.fileHandle)
    {
      ghost var m := processor.State();
      ghost var files := processor.FilesOf();
      completion := processor.Process(dirFuel);
      ProcessIsSpec(m, files, processor.Context(), dirFuel, Step(processor.State(), processor.FilesOf(), completion));
    }

    /** `SetIRQ(timerIRQFlag || rasterIRQFlag)`: the pending IRQ follows the interrupt flags. */
    method RaiseIrq()
      requires Valid()
      modifies processor
      ensures Valid() && processor.State() == WithIrq(old(processor.State()))
      ensures processor.FilesOf() == old(processor.FilesOf()) && traps.fileHandle == old(traps.fileHandle)
    {
      processor.SetIRQ(hooks.timerIRQFlag || hooks.rasterIRQFlag);
    }

    /** One turn of the `ExecuteLine` loop below the line's target: the line goes on as `LineAfter` the turn says. */
    method Turn(target: int, dirFuel: nat, steps: nat) returns (completion: Completion)
      requires Valid() && processor.regs.cycles < target && !processor.regs.jam && steps > 0
      modifies processor, ram.ram, ram.ioRam, hooks, hooks.sid.channels, traps, traps.fileHandle
      ensures Valid()
      ensures RunLine(old(processor.State()), old(processor.FilesOf()), processor.Context(), target, dirFuel, steps) ==
        LineAfter(Step(processor.State(), processor.FilesOf(), completion), processor.Context(), target, dirFuel, steps)
      ensures traps.fileHandle == null || traps.fileHandle == old(traps.fileHandle) || fresh(traps.fileHandle)
    {
      ghost var m := processor.State();
      ghost var files := processor.FilesOf();
      completion := RunTurn(dirFuel);
      LineTurn(m, files, processor.Context(), target, dirFuel, steps, Step(processor.State(), processor.FilesOf(), completion));
    }

    /** The `while` loop of `ExecuteLine`: `Process` until the cycle count reaches `target` or the processor jams. */
    method RunCpu(target: int, dirFuel: nat, steps: nat) returns (completion: Completion)
      requires Valid()
      modifies processor, ram.ram, ram.ioRam, hooks, hooks.sid.channels, traps, traps.fileHandle
      ensures Valid()
      ensures Step(processor.State(), processor.FilesOf(), completion) ==
        RunLine(old(processor.State()), old(processor.FilesOf()), processor.Context(), target, dirFuel, steps)
      ensures traps.fileHandle == null || traps.fileHandle == old(traps.fileHandle) || fresh(traps.fileHandle)
    {
      ghost var ctx := processor.Context();
      ghost var goal := RunLine(processor.State(), processor.FilesOf(), ctx, target, dirFuel, steps);
      var left := steps;
      while processor.regs.cycles < target && !processor.regs.jam
        invariant Valid()
        invariant RunLine(processor.State(), processor.FilesOf(), ctx, target, dirFuel, left) == goal
        invariant traps.fileHandle == null || traps.fileHandle == old(traps.fileHandle) || fresh(traps.fileHandle)
        decreases left
      {
        ghost var m := processor.State();
        ghost var files := processor.FilesOf();
        if left == 0 {
          LineOutOfSteps(m, files, ctx, target, dirFuel);
          return NoFuel;
        }
        completion := Turn(target, dirFuel, left);
        LineGoesOn(Step(processor.State(), processor.FilesOf(), completion), ctx, target, dirFuel, left);
        if completion != Normal {
          return;
        }
        left := Spent(left);
      }
      LineAtTarget(processor.State(), processor.FilesOf(), ctx, target, dirFuel, left);
      completion := Normal;
    }

    /** `ExecuteLine`: the line counter and raster IRQ, the processor up to the line's cycles, then the line drawn if `visible`. */
    method ExecuteLine(lineNum: nat, visible: bool, dirFuel: nat, steps: nat) returns (completion: Completion)
      requires Valid()
      modifies processor, ram.ram, ram.ioRam, hooks, hooks.sid.channels, traps, traps.fileHandle
      modifies vic2, vic2.pixels, vic2.lineChars, vic2.lineColors, vic2.spriteActive, vic2.spriteRow
      ensures Valid()
      ensures Run(Snap(), completion) == LineSpec(old(Snap()), processor.Context(), lineNum, visible, dirFuel, steps)
      ensures traps.fileHandle == null || traps.fileHandle == old(traps.fileHandle) || fresh(traps.fileHandle)
    {
      LineSteps(Snap(), processor.Context(), lineNum, visible, dirFuel, steps);
      completion := CatchUp(lineNum, dirFuel, steps);
      Untouched(vic2);
      if completion == Normal {
        RenderIfVisible(visible);
      }
    }

    /** `UpdateLineCounterAndIRQ(lineNum)`, then the processor up to the line's cycle count. */
    method CatchUp(lineNum: nat, dirFuel: nat, steps: nat) returns (completion: Completion)
      requires Valid()
      modifies processor, ram.ram, ram.ioRam, hooks, hooks.sid.channels, traps, traps.fileHandle
      ensures Valid()
      ensures Step(processor.State(), processor.FilesOf(), completion) ==
        RunLine(LineStart(old(processor.State()), lineNum), old(processor.FilesOf()), processor.Context(),
                CyclesPerLine * lineNum, dirFuel, steps)
      ensures traps.fileHandle == null || traps.fileHandle == old(traps.fileHandle) || fresh(traps.fileHandle)
    {
      StartLine(lineNum);
      completion := RunCpu(CyclesPerLine * lineNum, dirFuel, steps);
    }

    /** `UpdateLineCounterAndIRQ(lineNum)`: only the latches inside the processor's bus change. */
    method StartLine(lineNum: nat)
      requires Valid()
      modifies hooks
      ensures Valid() && Snap() == old(Snap()).(m := LineStart(old(processor.State()), lineNum))
      ensures traps.fileHandle == old(traps.fileHandle)
    {
      hooks.UpdateLineCounterAndIRQ(lineNum, ram.ioRam);
    }

    /** The end of `ExecuteLine`: `RenderNextLine` when the line is visible; the processor side is left alone. */
    method RenderIfVisible(visible: bool)
      requires Valid()
      modifies vic2, vic2.pixels, vic2.lineChars, vic2.lineColors, vic2.spriteActive, vic2.spriteRow
      ensures Valid()
      ensures processor.State() == old(processor.State()) && processor.FilesOf() == old(processor.FilesOf())
      ensures traps.fileHandle == old(traps.fileHandle)
      ensures vic2.State() == if visible then RenderSpec(old(vic2.State()), ram.State()) else old(vic2.State())
    {
      if visible {
        RenderLine();
      }
    }

    /** `RenderNextLine` from the emulator's side: only the video chip changes. */
    method RenderLine()
      requires Valid()
      modifies vic2, vic2.pixels, vic2.lineChars, vic2.lineColors, vic2.spriteActive, vic2.spriteRow
      ensures Valid()
      ensures processor.State() == old(processor.State()) && processor.FilesOf() == old(processor.FilesOf())
      ensures traps.fileHandle == old(traps.fileHandle)
      ensures vic2.State() == RenderSpec(old(vic2.State()), ram.State())
    {
      vic2.RenderNextLine();
      ProcessorUntouched(processor);
    }

    /** The lines `from` up to `to` of `FixedUpdate`; an exception or running out of steps ends them early. */
    method ExecuteLines(from: nat, to: nat, visible: bool, dirFuel: nat, steps: nat) returns (completion: Completion)
      requires Valid()
      modifies processor, ram.ram, ram.ioRam, hooks, hooks.sid.channels, traps, traps.fileHandle
      modifies vic2, vic2.pixels, vic2.lineChars, vic2.lineColors, vic2.spriteActive, vic2.spriteRow
      ensures Valid()
      ensures Run(Snap(), completion) == LinesSpec(old(Snap()), processor.Context(), from, to, visible, dirFuel, steps)
      ensures traps.fileHandle == null || traps.fileHandle == old(traps.fileHandle) || fresh(traps.fileHandle)
    {
      ghost var ctx := processor.Context();
      ghost var goal := LinesSpec(Snap(), ctx, from, to, visible, dirFuel, steps);
      var i := from;
      while i < to
        invariant Valid()
        invariant LinesSpec(Snap(), ctx, i, to, visible, dirFuel, steps) == goal
        invariant traps.fileHandle == null || traps.fileHandle == old(traps.fileHandle) || fresh(traps.fileHandle)
        decreases if i < to then to - i else 0
      {
        var next := i + 1;
        LinesStep(Snap(), ctx, i, next, to, visible, dirFuel, steps);
        completion := ExecuteLine(i, visible, dirFuel, steps);
        if completion != Normal {
          return;
        }
        i := next;
      }
      completion := Normal;
    }

    /**
     * `FixedUpdate`: the cycle counts back to zero, lines 0..49 unseen,
     * `BeginFrame`, lines 50..249 drawn, lines 250..311 unseen, then the
     * sound chip buffered up to the frame's last cycle.
     */
    method FixedUpdate(dirFuel: nat, steps: nat) returns (completion: Completion)
      requires Valid()
      modifies processor, ram.ram, ram.ioRam, hooks, hooks.sid.channels, traps, traps.fileHandle
      modifies vic2, vic2.pixels, vic2.lineChars, vic2.lineColors, vic2.spriteActive, vic2.spriteRow
      ensures Valid()
      ensures Run(Snap(), completion) == FrameSpec(old(Snap()), processor.Context(), dirFuel, steps)
    {
      ResetCounters();
      completion := ExecuteLines(0, FirstVisibleLine, false, dirFuel, steps);
      if completion != Normal {
        return;
      }
      completion := DrawScreen(dirFuel, steps);
    }

    /** `_processor.Cycles = 0` and `_audioCycles = 0`. */
    method ResetCounters()
      requires Valid()
      modifies processor, hooks
      ensures Valid()
      ensures Snap() == old(Snap()).(m := FrameReset(old(Snap()).m))
    {
      processor.SetRegisters(processor.regs.(cycles := 0));
      hooks.audioCycles := 0;
    }

    /** `BeginFrame`, the visible lines, then the lower border. */
    method DrawScreen(dirFuel: nat, steps: nat) returns (completion: Completion)
      requires Valid()
      modifies processor, ram.ram, ram.ioRam, hooks, hooks.sid.channels, traps, traps.fileHandle
      modifies vic2, vic2.pixels, vic2.lineChars, vic2.lineColors, vic2.spriteActive, vic2.spriteRow
      ensures Valid()
      ensures Run(Snap(), completion) == ScreenSpec(old(Snap()), processor.Context(), dirFuel, steps)
    {
      ghost var s := Snap();
      vic2.BeginFrame();
      assert Snap() == s.(vic := s.vic.(raster := FrameStart, active := seq(8, _ => false)));
      completion := ExecuteLines(FirstVisibleLine, FirstInvisibleLine, true, dirFuel, steps);
      if completion != Normal {
        return;
      }
      ghost var r2 := Snap();
      completion := LowerBorder(dirFuel, steps);
      assert Run(Snap(), completion) == BorderSpec(r2, processor.Context(), dirFuel, steps);
    }

    /** The lines below the screen, then the rest of the frame's audio. */
    method LowerBorder(dirFuel: nat, steps: nat) returns (completion: Completion)
      requires Valid()
      modifies processor, ram.ram, ram.ioRam, hooks, hooks.sid.channels, traps, traps.fileHandle
      modifies vic2, vic2.pixels, vic2.lineChars, vic2.lineColors, vic2.spriteActive, vic2.spriteRow
      ensures Valid()
      ensures Run(Snap(), completion) == BorderSpec(old(Snap()), processor.Context(), dirFuel, steps)
    {
      completion := ExecuteLines(FirstInvisibleLine, LinesPerFrame, false, dirFuel, steps);
      if completion != Normal {
        return;
      }
      FlushFrameAudio();
    }

    /** Audio not yet rendered up to the frame's last cycle is buffered now. */
    method FlushFrameAudio()
      requires Valid()
      modifies hooks, hooks.sid.channels
      ensures Valid()
      ensures Snap() == old(Snap()).(m := FlushedAudio(old(Snap()).m))
    {
      ghost var s := Snap();
      BufferToFrameEnd();
      assert unchanged(processor, ram, ram.ram, ram.ioRam, traps, vic2, vic2.pixels, vic2.lineChars, vic2.lineColors,
                       vic2.spriteActive, vic2.spriteRow);
      assert ram.State() == s.m.bus.(hooks := Some(hooks.State()));
      assert processor.State() == FlushedAudio(s.m);
    }

    /** `BufferSamples(frameCycles - _audioCycles)` and `_audioCycles = frameCycles`, when audio is behind. */
    method BufferToFrameEnd()
      requires ram.Valid() && hooks.Valid()
      modifies hooks, hooks.sid.channels
      ensures hooks.Valid()
      ensures hooks.State() == if old(hooks.audioCycles) < FrameCycles
        then old(hooks.State()).(latch := old(hooks.LatchState()).(audioCycles := FrameCycles),
                                 voices := BufferSpec(old(hooks.sid.Voices()), SidRegisters(ram.ioRam[..]),
                                                      FrameCycles - old(hooks.audioCycles)))
        else old(hooks.State())
      ensures old(hooks.audioCycles) < FrameCycles ==>
        hooks.sid.Voices() == BufferSpec(old(hooks.sid.Voices()), SidRegisters(ram.ioRam[..]), FrameCycles - old(hooks.audioCycles))
      ensures old(hooks.audioCycles) >= FrameCycles ==> hooks.sid.Voices() == old(hooks.sid.Voices())
    {
      if hooks.audioCycles < FrameCycles {
        hooks.FlushAudio(SidRegisters(ram.ioRam[..]), FrameCycles);
      }
    }
  }
}
