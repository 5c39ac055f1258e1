// The emulator's side of the I/O area: the latches behind the VIC-II raster
// registers and the CIA timer, the joystick and keyboard ports, and the SID
// flush on register writes. These are the `Emulator` fields and the two
// callbacks it registers with the memory bus (`HandleIORead`,
// `HandleIOWrite`), together with the per-line `UpdateLineCounterAndIRQ`.
// Addresses within the 4 KB I/O area are offsets from $D000 (`io[0x11]` is
// $D011, `io[0xc0e]` is $DC0E).
module IoRegisters {
  import opened Bits
  import opened SoundChip

  const CyclesPerLine: nat := 63

  /** One row of the keyboard matrix per column bit of $DC00. */
  type KeyRows = s: seq<byte> | |s| == 8 witness [0xff, 0xff, 0xff, 0xff, 0xff, 0xff, 0xff, 0xff]

  /** The `Emulator` fields the hooks read and latch. */
  datatype Latch = Latch(
    lineCounter: nat, timer: int, timerIRQEnable: bool, timerIRQFlag: bool,
    rasterIRQFlag: bool, audioCycles: int)

  /** Everything behind the hooks: the latches, the host's input ports and the three SID voices. */
  datatype Peripherals = Peripherals(latch: Latch, joystick: byte, keyMatrix: KeyRows, voices: Voices)

  // ---- reads ----

  /** The $DC01 scan of the first `n` rows: 0xff ANDed with every row whose column bit is clear in $DC00. */
  function KeyScan(columns: byte, rows: KeyRows, n: nat): byte
    requires n <= 8
  {
    if n == 0 then 0xff
    else
      var partial := KeyScan(columns, rows, n - 1);
      if !Bit(columns, BitValues[n - 1]) then And8(partial, rows[n - 1]) else partial
  }

  /**
   * Bit j of the scan is set exactly when bit j is set in every selected row:
   * a pressed key (a 0 bit) in any selected row shows as 0.
   */
  lemma {:induction false} KeyScanBits(columns: byte, rows: KeyRows, n: nat, j: nat)
    requires n <= 8 && j < 8
    ensures BitAt(KeyScan(columns, rows, n), j) <==>
      forall i :: 0 <= i < n && !Bit(columns, BitValues[i]) ==> BitAt(rows[i], j)
  {
    if n == 0 {
      assert BitAt(0xff, j) by {
        AllOnesBits(j);
      }
    } else {
      KeyScanBits(columns, rows, n - 1, j);
      if !Bit(columns, BitValues[n - 1]) {
        AndBit(KeyScan(columns, rows, n - 1), rows[n - 1], j);
      }
    }
  }

  lemma AllOnesBits(j: nat)
    requires j < 8
    ensures BitAt(0xff, j)
  {
    Pow2Widths();
    LowOnes(8, j);
  }

  /** The $D011 read: bit 7 is bit 8 of the current line, bits 0..6 are as stored. */
  function RasterHigh(lineCounter: nat, stored: byte): byte {
    (if lineCounter >= 0x100 then 0x80 else 0) + stored % 0x80
  }

  lemma RasterHighBits(lineCounter: nat, stored: byte)
    ensures var r := RasterHigh(lineCounter, stored);
      (Bit(r, 0x80) <==> lineCounter >= 0x100) && r % 0x80 == stored % 0x80
  {
    var low := stored % 0x80;
    DivModOf(RasterHigh(lineCounter, stored), 0x80, if lineCounter >= 0x100 then 1 else 0, low);
  }

  /** The $DC0D read value: bit 0 the timer-IRQ enable, bit 7 the timer-IRQ flag. */
  function TimerStatus(enable: bool, flag: bool): byte {
    (if enable then 1 else 0) + (if flag then 0x80 else 0)
  }

  lemma TimerStatusBits(enable: bool, flag: bool)
    ensures var r := TimerStatus(enable, flag);
      (Bit(r, 1) <==> enable) && (Bit(r, 0x80) <==> flag) && r / 2 % 0x40 == 0
  {
  }

  /** The addresses `HandleIORead` answers; every other read falls through to the I/O shadow. */
  predicate ReadHandled(addr: word) {
    addr == 0xdc00 || addr == 0xdc01 || addr == 0xd011 || addr == 0xd012 ||
    addr == 0xd01a || addr == 0xd030 || addr == 0xdc0d
  }

  /** The value `HandleIORead` returns for a handled address, from the hook-free I/O shadow `io`. */
  function HookValue(p: Peripherals, io: seq<byte>, addr: word): byte
    requires |io| == 0x1000
  {
    if addr == 0xdc00 then p.joystick
    else if addr == 0xdc01 then KeyScan(io[0xc00], p.keyMatrix, 8)
    else if addr == 0xd011 then RasterHigh(p.latch.lineCounter, io[0x11])
    else if addr == 0xd012 then Wrap8(p.latch.lineCounter)
    else if addr == 0xd01a then Or8(io[0x1a], 0xf0)
    else if addr == 0xd030 then 0xff
    else if addr == 0xdc0d then TimerStatus(p.latch.timerIRQEnable, p.latch.timerIRQFlag)
    else 0
  }

  /**
   * `HandleIORead`: the value (None when the hook declines) and the
   * peripherals after the read; only a $DC0D read changes anything, by
   * acknowledging the timer interrupt.
   */
  function HookRead(p: Peripherals, io: seq<byte>, addr: word): (r: (Option<byte>, Peripherals))
    requires |io| == 0x1000
    ensures r.0.Some? <==> ReadHandled(addr)
    ensures addr != 0xdc0d ==> r.1 == p
    ensures addr == 0xdc0d ==> r.1 == p.(latch := p.latch.(timerIRQFlag := false))
  {
    if !ReadHandled(addr) then (None, p)
    else if addr == 0xdc0d then (Some(HookValue(p, io, addr)), p.(latch := p.latch.(timerIRQFlag := false)))
    else (Some(HookValue(p, io, addr)), p)
  }

  /** Reading $DC0D reports the timer's enable and pending flag, then clears the flag. */
  lemma TimerAcknowledge(p: Peripherals, io: seq<byte>)
    requires |io| == 0x1000
    ensures var (v, after) := HookRead(p, io, 0xdc0d);
      v.Some? && (Bit(v.value, 1) <==> p.latch.timerIRQEnable) &&
      (Bit(v.value, 0x80) <==> p.latch.timerIRQFlag) &&
      !after.latch.timerIRQFlag && after.latch.timerIRQEnable == p.latch.timerIRQEnable
  {
    TimerStatusBits(p.latch.timerIRQEnable, p.latch.timerIRQFlag);
  }

  /** The raster registers read back the current line: $D011 bit 7 is line >= 256, $D012 the low byte. */
  lemma RasterReadBack(p: Peripherals, io: seq<byte>)
    requires |io| == 0x1000 && p.latch.lineCounter < 0x200
    ensures var hi := HookRead(p, io, 0xd011).0.value;
      var lo := HookRead(p, io, 0xd012).0.value;
      (if Bit(hi, 0x80) then 0x100 else 0) + lo == p.latch.lineCounter &&
      hi % 0x80 == io[0x11] % 0x80
  {
    RasterHighBits(p.latch.lineCounter, io[0x11]);
  }

  // ---- writes ----

  /** The register snapshot the SID loads: $D400..$D418, read through the hook, which declines there. */
  function SidRegisters(io: seq<byte>): (regs: seq<byte>)
    requires |io| == 0x1000
    ensures |regs| == 25
  {
    io[0x400..0x419]
  }

  /**
   * `HandleIOWrite`, run before the byte is stored. `now` is the CPU cycle
   * count; `io` the shadow as it was before the write. A write to
   * $D400..$D418 first renders the cycles since the last flush with the
   * registers as they were; any other write leaves the voices alone.
   */
  function HookWrite(p: Peripherals, io: seq<byte>, addr: word, value: byte, now: int): Peripherals
    requires |io| == 0x1000
  {
    if 0xd400 <= addr <= 0xd418 then
      p.(latch := p.latch.(audioCycles := now),
         voices := BufferSpec(p.voices, SidRegisters(io), now - p.latch.audioCycles))
    else if addr == 0xdc0d then
      // (value & 0x81) == 0x81 enables, == 0x01 disables
      if Bit(value, 1) && Bit(value, 0x80) then p.(latch := p.latch.(timerIRQEnable := true))
      else if Bit(value, 1) then p.(latch := p.latch.(timerIRQEnable := false))
      else p
    else if addr == 0xdc0e then
      if Bit(value, 0x10) then p.(latch := p.latch.(timer := Word(io[0xc04], io[0xc05]))) else p
    else if addr == 0xd019 then p.(latch := p.latch.(rasterIRQFlag := false))
    else p
  }

  /** Timer-IRQ enable: set by 0x81 in bits 7 and 0, cleared by bit 0 alone, otherwise kept. */
  lemma TimerEnableWrite(p: Peripherals, io: seq<byte>, value: byte, now: int)
    requires |io| == 0x1000
    ensures var after := HookWrite(p, io, 0xdc0d, value, now);
      after.latch.timerIRQEnable == (if And(value, 0x81) == 0x81 then true
                                     else if And(value, 0x81) == 0x01 then false
                                     else p.latch.timerIRQEnable) &&
      after.(latch := after.latch.(timerIRQEnable := p.latch.timerIRQEnable)) == p
  {
    MaskBits81(value);
  }

  lemma MaskBits81(value: byte)
    ensures And(value, 0x81) == (if Bit(value, 0x80) then 0x80 else 0) + (if Bit(value, 1) then 1 else 0)
  {
    if value != 0 {
      assert And(value, 0x81) == 2 * And(value / 2, 0x40) + value % 2;
      AndPow2(value / 2, 6);
      assert Pow2(6) == 0x40;
      BitAtMask(value, 7);
    }
  }

  /** A SID-register write first renders audio up to `now` with the registers before the write. */
  lemma SidFlushBeforeStore(p: Peripherals, io: seq<byte>, addr: word, value: byte, now: int)
    requires |io| == 0x1000 && 0xd400 <= addr <= 0xd418
    ensures HookWrite(p, io, addr, value, now).voices ==
      BufferSpec(p.voices, io[0x400..0x419], now - p.latch.audioCycles)
    ensures HookWrite(p, io, addr, value, now).latch.audioCycles == now
  {
  }

  /** A $DC0E write with bit 4 set reloads the timer from the stored latch bytes $DC04/$DC05. */
  lemma TimerReload(p: Peripherals, io: seq<byte>, value: byte, now: int)
    requires |io| == 0x1000 && Bit(value, 0x10)
    ensures HookWrite(p, io, 0xdc0e, value, now).latch.timer == io[0xc04] as int + 0x100 * (io[0xc05] as int)
  {
  }

  // ---- once per raster line ----

  /** The raster-compare line: bit 7 of $D011 as bit 8, $D012 as the low byte. */
  function RasterTarget(io: seq<byte>): (t: nat)
    requires |io| == 0x1000
    ensures t < 0x200
  {
    (if Bit(io[0x11], 0x80) then 0x100 else 0) + io[0x12] as int
  }

  /** `UpdateLineCounterAndIRQ`, on the hook-free shadow `io`. */
  function LineUpdate(l: Latch, io: seq<byte>, line: nat): Latch
    requires |io| == 0x1000
  {
    var raster := l.rasterIRQFlag || (Bit(io[0x1a], 1) && line == RasterTarget(io));
    var counting := l.timer > 0 && Bit(io[0xc0e], 1);
    var timer := if !counting then l.timer else if l.timer - CyclesPerLine <= 0 then 0 else l.timer - CyclesPerLine;
    var expired := counting && l.timer - CyclesPerLine <= 0 && l.timerIRQEnable;
    l.(lineCounter := line, rasterIRQFlag := raster, timer := timer,
       timerIRQFlag := l.timerIRQFlag || expired)
  }

  /** The raster flag goes up exactly on the compare line when enabled in $D01A, and never goes down here. */
  lemma RasterCompare(l: Latch, io: seq<byte>, line: nat)
    requires |io| == 0x1000
    ensures var r := LineUpdate(l, io, line);
      r.lineCounter == line &&
      (r.rasterIRQFlag <==> l.rasterIRQFlag || (Bit(io[0x1a], 1) && line == RasterTarget(io)))
  {
  }

  /** A running timer loses 63 per line and stops at zero, never below. */
  lemma TimerCountdown(l: Latch, io: seq<byte>, line: nat)
    requires |io| == 0x1000 && l.timer >= 0
    ensures var r := LineUpdate(l, io, line);
      r.timer >= 0 &&
      r.timer == (if l.timer > 0 && Bit(io[0xc0e], 1) then Max(0, l.timer - CyclesPerLine) else l.timer) &&
      (r.timerIRQFlag <==>
         l.timerIRQFlag || (l.timerIRQEnable && Bit(io[0xc0e], 1) && 0 < l.timer <= CyclesPerLine))
  {
  }

  function Max(a: int, b: int): int { if a >= b then a else b }

  /** `n` consecutive lines, starting at line `first`. */
  function Lines(l: Latch, io: seq<byte>, first: nat, n: nat): Latch
    requires |io| == 0x1000
    decreases n
  {
    if n == 0 then l else LineUpdate(Lines(l, io, first, n - 1), io, first + n - 1)
  }

  /**
   * With $DC0E bit 0 set, a timer loaded with `t` reaches zero after
   * ceil(t/63) lines, and at that point has raised the flag if enabled.
   */
  lemma {:induction false} TimerExpires(l: Latch, io: seq<byte>, first: nat, n: nat)
    requires |io| == 0x1000 && l.timer >= 0 && Bit(io[0xc0e], 1)
    ensures Lines(l, io, first, n).timer == Max(0, l.timer - CyclesPerLine * n)
    ensures Lines(l, io, first, n).timerIRQEnable == l.timerIRQEnable
    ensures Lines(l, io, first, n).timerIRQFlag <==>
      l.timerIRQFlag || (l.timerIRQEnable && 0 < l.timer <= CyclesPerLine * n)
  {
    if n > 0 {
      TimerExpires(l, io, first, n - 1);
    }
  }

  // ---- the Emulator's latch fields and hook methods ----

  /** The `Emulator` fields behind the I/O hooks, the host input ports, and the SID. */
  class IoHooks {
    var lineCounter: nat
    var timer: int
    var timerIRQEnable: bool
    var timerIRQFlag: bool
    var rasterIRQFlag: bool
    var audioCycles: int
    /** `controls.joystick` and `controls.keyMatrix`, set by the host between frames. */
    var joystick: byte
    var keyMatrix: KeyRows
    const sid: Sid

    ghost predicate Valid()
      reads this, sid, sid.channels
    {
      sid.Valid() && timer >= 0
    }

    function LatchState(): Latch
      reads this
    {
      Latch(lineCounter, timer, timerIRQEnable, timerIRQFlag, rasterIRQFlag, audioCycles)
    }

    function State(): Peripherals
      reads this, sid, sid.channels
      requires |sid.channels| == 3
    {
      Peripherals(LatchState(), joystick, keyMatrix, sid.Voices())
    }

    constructor ()
      ensures Valid() && fresh(sid) && fresh(sid.channels[0]) && fresh(sid.channels[1]) && fresh(sid.channels[2])
      ensures LatchState() == Latch(0, 0, false, false, false, 0)
      ensures sid.Voices() == [InitialVoice(), InitialVoice(), InitialVoice()]
    {
      lineCounter, timer, timerIRQEnable, timerIRQFlag, rasterIRQFlag, audioCycles := 0, 0, false, false, false, 0;
      joystick := 0;
      keyMatrix := [0xff, 0xff, 0xff, 0xff, 0xff, 0xff, 0xff, 0xff];
      var chip := new Sid();
      sid := chip;
    }

    /** `HandleIORead`: reports whether it handled the read, and the value when it did. */
    method HandleIORead(address: word, io: array<byte>) returns (value: byte, handled: bool)
      requires io.Length == 0x1000 && |sid.channels| == 3
      modifies this
      ensures (if handled then Some(value) else None, State()) == HookRead(old(State()), io[..], address)
      ensures !handled ==> value == 0
      ensures timer == old(timer)
    {
      if address == 0xdc0d {
        handled := true;
        value := 0;
        if timerIRQEnable {
          value := value + 1;
        }
        if timerIRQFlag {
          timerIRQFlag := false;
          value := value + 0x80;
        }
      } else {
        value, handled := PeekIORead(address, io);
      }
    }

    /** The reads of `HandleIORead` other than $DC0D's, none of which changes the peripherals. */
    method PeekIORead(address: word, io: array<byte>) returns (value: byte, handled: bool)
      requires io.Length == 0x1000 && |sid.channels| == 3 && address != 0xdc0d
      ensures (if handled then Some(value) else None, State()) == HookRead(State(), io[..], address)
      ensures !handled ==> value == 0
    {
      if address == 0xdc00 {
        handled := true;
        value := joystick;
      } else if address == 0xdc01 {
        handled := true;
        value := 0xff;
        for i := 0 to 8
          invariant value == KeyScan(io[0xc00], keyMatrix, i)
        {
          if !Bit(io[0xc00], BitValues[i]) {
            value := And8(value, keyMatrix[i]);
          }
        }
      } else if address == 0xd011 {
        handled := true;
        value := (if lineCounter >= 0x100 then 0x80 else 0) + io[0x11] % 0x80;
      } else if address == 0xd012 {
        handled := true;
        value := lineCounter % 0x100;
      } else if address == 0xd01a {
        handled := true;
        value := Or8(io[0x1a], 0xf0);
      } else if address == 0xd030 {
        handled := true;
        value := 0xff;
      } else {
        handled := false;
        value := 0;
      }
    }

    /** `HandleIOWrite`: `now` is the processor's cycle count, `io` the shadow before the store. */
    method HandleIOWrite(address: word, value: byte, io: array<byte>, now: int)
      requires Valid() && io.Length == 0x1000
      modifies this, sid.channels
      ensures Valid()
      ensures State() == HookWrite(old(State()), io[..], address, value, now)
      ensures 0xd400 <= address <= 0xd418 ==>
        sid.Voices() == BufferSpec(old(sid.Voices()), SidRegisters(old(io[..])), now - old(audioCycles))
      ensures !(0xd400 <= address <= 0xd418) ==> sid.Voices() == old(sid.Voices())
    {
      if 0xd400 <= address <= 0xd418 {
        FlushAudio(SidRegisters(io[..]), now);
      } else if address == 0xdc0d {
        if Bit(value, 1) && Bit(value, 0x80) {
          timerIRQEnable := true;
        }
        if Bit(value, 1) && !Bit(value, 0x80) {
          timerIRQEnable := false;
        }
      } else if address == 0xdc0e {
        if Bit(value, 0x10) {
          timer := io[0xc04] as int + (io[0xc05] as int) * 0x100;
        }
      } else if address == 0xd019 {
        rasterIRQFlag := false;
      }
    }

    /** Render audio up to the cycle `now` with the current SID registers. */
    method FlushAudio(regs: seq<byte>, now: int)
      requires Valid() && |regs| == 25
      modifies this, sid.channels
      ensures Valid()
      ensures LatchState() == old(LatchState()).(audioCycles := now)
      ensures joystick == old(joystick) && keyMatrix == old(keyMatrix)
      ensures sid.Voices() == BufferSpec(old(sid.Voices()), regs, now - old(audioCycles))
    {
      sid.BufferSamples(now - audioCycles, regs);
      ghost var rendered := sid.Voices();
      audioCycles := now;
      assert sid.Voices() == rendered;
    }

    /** `UpdateLineCounterAndIRQ(lineNum)`, reading the shadow `io` without the hook. */
    method UpdateLineCounterAndIRQ(lineNum: nat, io: array<byte>)
      requires io.Length == 0x1000
      modifies this
      ensures LatchState() == LineUpdate(old(LatchState()), io[..], lineNum)
      ensures joystick == old(joystick) && keyMatrix == old(keyMatrix)
    {
      lineCounter := lineNum;
      if Bit(io[0x1a], 1) {
        var targetLineNum := (if Bit(io[0x11], 0x80) then 0x100 else 0) + io[0x12] as int;
        if lineCounter == targetLineNum {
          rasterIRQFlag := true;
        }
      }
      if timer > 0 && Bit(io[0xc0e], 1) {
        timer := timer - CyclesPerLine;
        if timer <= 0 {
          timer := 0;
          if timerIRQEnable {
            timerIRQFlag := true;
          }
        }
      }
    }
  }
}
