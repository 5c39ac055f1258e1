// Laws of the processor model: the stack round trips, JSR/RTS and
// interrupt/RTI pairs, the cycle counts of the page-crossing and branch
// penalties, `Process`'s order of service, the trap's closing RTS and the
// jam opcodes. Each is stated over the value-level `Machine`, for every
// input, through `Execute(m, Decode(op))` or `ProcessSpec`.
module CpuLaws {
  import opened Bits
  import opened Alu
  import opened Memory
  import opened Kernal
  import opened Cpu

  // ---- the stack ----

  /** Page 1 lies below the I/O area and above the processor port: stack accesses are plain RAM accesses. */
  lemma StackIsRam(b: Bus, sp: byte, v: byte, now: int)
    requires b.Valid()
    ensures BusRead(b, StackPage + sp) == (b.ram[StackPage + sp], b)
    ensures BusWrite(b, StackPage + sp, v, now) == b.(ram := b.ram[StackPage + sp := v])
  {
  }

  /** `Pop` after `Push` returns the pushed byte and restores every register. */
  lemma PushThenPop(m: Machine, v: byte)
    requires m.Valid()
    ensures Popped(Pushed(m, v)) == (v, Pushed(m, v).(regs := m.regs))
  {
    StackIsRam(m.bus, m.regs.sp, v, m.regs.cycles);
    var m1 := Pushed(m, v);
    StackIsRam(m1.bus, m.regs.sp, v, m.regs.cycles);
  }

  /** `Pop16` after `Push16` returns the pushed word and restores every register. */
  lemma Push16ThenPop16(m: Machine, v: word)
    requires m.Valid()
    ensures Popped16(Pushed16(m, v)) == (v, Pushed16(m, v).(regs := m.regs))
  {
    var m1 := Pushed(m, Hi(v));
    var m2 := Pushed(m1, Lo(v));
    PushThenPop(m1, Lo(v));
    var m3 := m2.(regs := m1.regs);
    assert Wrap8(m1.regs.sp + 1) == m.regs.sp;
    StackIsRam(m.bus, m.regs.sp, Hi(v), m.regs.cycles);
    StackIsRam(m1.bus, m1.regs.sp, Lo(v), m.regs.cycles);
    StackIsRam(m3.bus, m.regs.sp, 0, 0);
    assert m3.bus.ram[StackPage + m.regs.sp] == Hi(v);
    WordOfHalves(v);
  }

  /** The table entries of JSR and RTS. */
  lemma CallReturnOpcodes()
    ensures Decode(0x20) == Decoded(JSR, 6) && Decode(0x60) == Decoded(RTS, 6)
  {
  }

  /** `Execute` of a JSR: the pushes and the jump, then six cycles. */
  lemma ExecuteJsr(m: Machine)
    requires m.Valid()
    ensures Execute(m, Decoded(JSR, 6)) == JsrStep(m).(regs := AddCycles(JsrStep(m).regs, 6))
  {
    assert Perform(m, JSR) == JsrStep(m);
  }

  /** `Execute` of an RTS: the pull, then six cycles. */
  lemma ExecuteRts(m: Machine)
    requires m.Valid()
    ensures Execute(m, Decoded(RTS, 6)) == RtsStep(m).(regs := AddCycles(RtsStep(m).regs, 6))
  {
    assert Perform(m, RTS) == RtsStep(m);
  }

  /** Popping reads only SP and memory: the other registers do not change what comes off the stack. */
  lemma Popped16IgnoresRegisters(m: Machine, r: Registers)
    requires m.Valid() && r.sp == m.regs.sp
    ensures Popped16(m.(regs := r)).0 == Popped16(m).0
    ensures Popped16(m.(regs := r)).1.regs.sp == Popped16(m).1.regs.sp
  {
  }

  /** RTS: PC is one past the pulled address, six cycles. */
  lemma RtsEffect(m: Machine)
    requires m.Valid()
    ensures var m2 := Execute(m, Decoded(RTS, 6));
      m2.regs.pc == ReturnAddress(Popped16(m).0) && m2.regs.sp == Popped16(m).1.regs.sp &&
      m2.regs.cycles == m.regs.cycles + 6
  {
    ExecuteRts(m);
  }

  /** The address RTS returns to after a JSR at `pc`: three bytes on, wrapping at $FFFF. */
  lemma ReturnAfterJsr(pc: word)
    ensures ReturnAddress(Wrap16(pc + 2)) == Wrap16(pc + 3)
  {
  }

  /** `Push16` moves SP two bytes down, wrapping within page 1. */
  lemma Pushed16Sp(m: Machine, v: word)
    requires m.Valid()
    ensures Pushed16(m, v).regs == m.regs.(sp := Wrap8(m.regs.sp - 2))
  {
    var sp: int := m.regs.sp;
    assert Wrap8(Wrap8(sp - 1) - 1) == Wrap8(sp - 2) by {
      if sp < 2 {
        assert Wrap8(sp - 1) == (if sp == 1 then 0 else 0xff);
      }
    }
  }

  /** The machine a JSR leaves: the return address pushed, SP two bytes down, PC at the operand, six cycles on. */
  lemma JsrState(m: Machine)
    requires m.Valid()
    ensures Execute(m, Decoded(JSR, 6)) ==
      Pushed16(m, Wrap16(m.regs.pc + 2)).(regs := m.regs.(sp := Wrap8(m.regs.sp - 2), pc := m.regs.address, cycles := m.regs.cycles + 6))
  {
    ExecuteJsr(m);
    Pushed16Sp(m, Wrap16(m.regs.pc + 2));
  }

  /** What a JSR leaves for the following RTS: its return address on the stack, two bytes down. */
  lemma JsrFacts(m: Machine)
    requires m.Valid()
    ensures var m1 := Execute(m, Decoded(JSR, 6));
      m1.regs.pc == m.regs.address && m1.regs.sp == Wrap8(m.regs.sp - 2) &&
      m1.regs.cycles == m.regs.cycles + 6 &&
      Popped16(m1).0 == Wrap16(m.regs.pc + 2) && Popped16(m1).1.regs.sp == m.regs.sp
  {
    var ret := Wrap16(m.regs.pc + 2);
    var pushed := Pushed16(m, ret);
    JsrState(m);
    var r1 := m.regs.(sp := Wrap8(m.regs.sp - 2), pc := m.regs.address, cycles := m.regs.cycles + 6);
    Pushed16Sp(m, ret);
    Push16ThenPop16(m, ret);
    Popped16IgnoresRegisters(pushed, r1);
  }

  /**
   * JSR ($20 in the table) jumps to its operand; an RTS ($60) right after it
   * continues at the byte after the JSR, with SP back where it was and 12
   * cycles counted.
   */
  lemma JsrThenRts(m: Machine)
    requires m.Valid()
    ensures var m1 := Execute(m, Decoded(JSR, 6));
      m1.regs.pc == m.regs.address && m1.regs.sp == Wrap8(m.regs.sp - 2) &&
      m1.regs.cycles == m.regs.cycles + 6 &&
      var m2 := Execute(m1, Decoded(RTS, 6));
      m2.regs.pc == Wrap16(m.regs.pc + 3) && m2.regs.sp == m.regs.sp && m2.regs.cycles == m.regs.cycles + 12
  {
    JsrFacts(m);
    RtsEffect(Execute(m, Decoded(JSR, 6)));
    ReturnAfterJsr(m.regs.pc);
  }

  // ---- page-crossing penalties ----

  /** A reading instruction's operation leaves PC, SP and the cycle count alone. */
  lemma ApplyLoadKeeps(r: Registers, op: LoadOp, v: byte)
    ensures var r' := ApplyLoad(r, op, v); r'.cycles == r.cycles && r'.pc == r.pc && r'.sp == r.sp
  {
  }

  /** A reading instruction runs `LoadStep` and then counts the table's cycles. */
  lemma LoadExecutes(m: Machine, op: LoadOp, mode: Mode, n: nat)
    requires m.Valid()
    ensures var m1 := LoadStep(m, op, mode);
      Execute(m, Decoded(Load(op, mode), n)) == m1.(regs := AddCycles(m1.regs, n))
  {
  }

  /**
   * An indexed absolute read (abs,X or abs,Y) takes exactly one cycle more
   * than the table's count when, and only when, the operand address and the
   * indexed target lie in different pages; PC moves past its three bytes.
   */
  lemma IndexedReadCycles(m: Machine, op: LoadOp, mode: Mode, n: nat)
    requires m.Valid() && (mode == AbsoluteX || mode == AbsoluteY)
    ensures var index := if mode == AbsoluteX then m.regs.x else m.regs.y;
      var target := Wrap16(m.regs.address + index);
      var m1 := Execute(m, Decoded(Load(op, mode), n));
      m1.regs.cycles == m.regs.cycles + n + (if Hi(m.regs.address) != Hi(target) then 1 else 0) &&
      m1.regs.pc == Wrap16(m.regs.pc + 3)
  {
    LoadExecutes(m, op, mode, n);
    IndexedLoadStep(m, op, mode);
  }

  /** The `LoadStep` half of `IndexedReadCycles`. */
  lemma IndexedLoadStep(m: Machine, op: LoadOp, mode: Mode)
    requires m.Valid() && (mode == AbsoluteX || mode == AbsoluteY)
    ensures var index := if mode == AbsoluteX then m.regs.x else m.regs.y;
      var target := Wrap16(m.regs.address + index);
      var m1 := LoadStep(m, op, mode);
      m1.regs.cycles == m.regs.cycles + (if Hi(m.regs.address) != Hi(target) then 1 else 0) &&
      m1.regs.pc == Wrap16(m.regs.pc + 3)
  {
    var m0 := AdvancePc(m, 3);
    var (v, m1) := OperandOf(m0, mode);
    var index := if mode == AbsoluteX then m.regs.x else m.regs.y;
    assert (Wrap16(m.regs.address + index), m0.(regs := PagePenalty(m0.regs, true, m.regs.address, Wrap16(m.regs.address + index))))
      == EffectiveAddress(m0, mode, true);
    assert m1.regs == PagePenalty(m0.regs, true, m.regs.address, Wrap16(m.regs.address + index));
    ApplyLoadKeeps(m1.regs, op, v);
  }

  /**
   * A (zp),Y read takes one cycle more than the table's count exactly when
   * the pointer stored at `data` and the pointer plus Y lie in different pages.
   */
  lemma IndirectYReadCycles(m: Machine, op: LoadOp, n: nat)
    requires m.Valid()
    ensures var pointer := BusRead16(m.bus, m.regs.data).0;
      var target := Wrap16(pointer + m.regs.y);
      var m1 := Execute(m, Decoded(Load(op, IndirectY), n));
      m1.regs.cycles == m.regs.cycles + n + (if Hi(pointer) != Hi(target) then 1 else 0) &&
      m1.regs.pc == Wrap16(m.regs.pc + 2)
  {
    LoadExecutes(m, op, IndirectY, n);
    IndirectYLoadStep(m, op);
  }

  /** The `LoadStep` half of `IndirectYReadCycles`. */
  lemma IndirectYLoadStep(m: Machine, op: LoadOp)
    requires m.Valid()
    ensures var pointer := BusRead16(m.bus, m.regs.data).0;
      var target := Wrap16(pointer + m.regs.y);
      var m1 := LoadStep(m, op, IndirectY);
      m1.regs.cycles == m.regs.cycles + (if Hi(pointer) != Hi(target) then 1 else 0) &&
      m1.regs.pc == Wrap16(m.regs.pc + 2)
  {
    var m0 := AdvancePc(m, 2);
    var (v, m1) := OperandOf(m0, IndirectY);
    var (p, b) := BusRead16(m.bus, m.regs.data);
    var t := Wrap16(p + m.regs.y);
    assert PointerAt(m0, m.regs.data) == (p, Machine(m0.regs, b));
    assert EffectiveAddress(m0, IndirectY, true) == (t, Machine(PagePenalty(m0.regs, true, p, t), b));
    assert m1.regs == PagePenalty(m0.regs, true, p, t);
    ApplyLoadKeeps(m1.regs, op, v);
  }

  /** Address resolution without the page check leaves the registers as they were. */
  lemma UncheckedAddressKeepsRegisters(m: Machine, mode: Mode)
    requires m.Valid() && mode != Immediate
    ensures EffectiveAddress(m, mode, false).1.regs == m.regs
  {
  }

  /** A store counts exactly the table's cycles, in every addressing mode: it is never penalised. */
  lemma StoreCycles(m: Machine, reg: Register, mode: Mode, n: nat)
    requires m.Valid()
    ensures Execute(m, Decoded(Store(reg, mode), n)).regs.cycles == m.regs.cycles + n
  {
    if mode != Immediate {
      UncheckedAddressKeepsRegisters(AdvancePc(m, Length(mode)), mode);
    }
  }

  /** A read-modify-write on memory counts exactly the table's cycles, in every addressing mode. */
  lemma ModifyCycles(m: Machine, op: ModifyOp, mode: Mode, n: nat)
    requires m.Valid()
    ensures Execute(m, Decoded(ModifyMemory(op, mode), n)).regs.cycles == m.regs.cycles + n
  {
    if mode != Immediate {
      UncheckedAddressKeepsRegisters(AdvancePc(m, Length(mode)), mode);
    }
  }

  /** Every store and read-modify-write opcode, abs,X included, adds exactly its table count. */
  lemma NoPenaltyOnWrites(m: Machine, opcode: byte)
    requires m.Valid() && (Decode(opcode).ins.Store? || Decode(opcode).ins.ModifyMemory?)
    ensures Execute(m, Decode(opcode)).regs.cycles == m.regs.cycles + Decode(opcode).cycles
  {
    var d := Decode(opcode);
    if d.ins.Store? {
      StoreCycles(m, d.ins.reg, d.ins.mode, d.cycles);
    } else {
      ModifyCycles(m, d.ins.mop, d.ins.mode, d.cycles);
    }
  }

  // ---- branches ----

  /**
   * A branch not taken moves PC past its two bytes in 2 cycles. A taken
   * branch adds the signed offset to that address and costs one cycle more,
   * and one more again when the target lies in another page. Memory is untouched.
   */
  lemma BranchCycles(m: Machine, flag: Condition, when: bool)
    requires m.Valid()
    ensures var next := Wrap16(m.regs.pc + 2);
      var target := Wrap16(next + Signed8(m.regs.data));
      var m1 := Execute(m, Decoded(Branch(flag, when), 2));
      m1.bus == m.bus &&
      if FlagValue(m.regs.flags, flag) == when then
        m1.regs.pc == target && m1.regs.cycles == m.regs.cycles + 3 + (if Hi(next) != Hi(target) then 1 else 0)
      else
        m1.regs.pc == next && m1.regs.cycles == m.regs.cycles + 2
  {
  }

  /** Every branch opcode counts 2 cycles in the table. */
  lemma BranchOpcodes(opcode: byte)
    requires Decode(opcode).ins.Branch?
    ensures Decode(opcode).cycles == 2
  {
  }

  // ---- the order of service in `Process` ----

  /**
   * A pending reset is served first, whatever else is pending: SP drops by
   * 3, I is set, PC comes from $FFFC, the count restarts at 7, and the reset,
   * jam, NMI and IRQ conditions are all cleared.
   */
  lemma ResetServedFirst(m: Machine, files: Files, traps: Option<TrapContext>, fuel: nat)
    requires m.Valid() && m.regs.reset
    ensures var s := ProcessSpec(m, files, traps, fuel);
      s.files == files && s.completion == Normal &&
      s.m.regs.sp == Wrap8(m.regs.sp - 3) && s.m.regs.flags.interrupt &&
      s.m.regs.pc == BusRead16(m.bus, ResetVector).0 && s.m.regs.cycles == 7 &&
      !s.m.regs.reset && !s.m.regs.jam && !s.m.regs.nmi && !s.m.regs.irq
  {
  }

  /** Without a reset, a jammed processor only drops the pending NMI and IRQ. */
  lemma JamServedSecond(m: Machine, files: Files, traps: Option<TrapContext>, fuel: nat)
    requires m.Valid() && !m.regs.reset && m.regs.jam
    ensures ProcessSpec(m, files, traps, fuel) == Step(m.(regs := m.regs.(nmi := false, irq := false)), files, Normal)
  {
  }

  /** A push changes no register but SP, which drops by one. */
  lemma PushedRegs(m: Machine, v: byte)
    requires m.Valid()
    ensures Pushed(m, v).regs == m.regs.(sp := Wrap8(m.regs.sp - 1))
  {
  }

  /** Three pushes (`Push16` then `Push`) change no register but SP, which drops by three. */
  lemma ThreePushes(m: Machine, v: byte)
    requires m.Valid()
    ensures Pushed(Pushed16(m, m.regs.pc), v).regs == m.regs.(sp := Wrap8(m.regs.sp - 3))
  {
    var m16 := Pushed16(m, m.regs.pc);
    Pushed16Sp(m, m.regs.pc);
    ThirdPushSp(m16.regs.sp, m.regs.sp);
    PushedRegs(m16, v);
  }

  /** A third push after `Push16`: SP three bytes below where it started. */
  lemma ThirdPushSp(sp2: byte, sp: byte)
    requires sp2 == Wrap8(sp - 2)
    ensures Wrap8(sp2 - 1) == Wrap8(sp - 3)
  {
    var s: int := sp;
    if s < 2 {
      assert sp2 == s + 254;
    }
  }

  /**
   * The interrupt entry of NMI and IRQ: PC and the status with bit 4 clear
   * are pushed, SP ends three bytes down, I is set, PC comes from the vector.
   */
  lemma InterruptFacts(m: Machine, vector: word)
    requires m.Valid()
    ensures var pushed := Pushed(Pushed16(m, m.regs.pc), PackStatus(m.regs.flags, false));
      var (pc, b) := BusRead16(pushed.bus, vector);
      Interrupt(m, vector) ==
        Machine(m.regs.(sp := Wrap8(m.regs.sp - 3), flags := m.regs.flags.(interrupt := true), pc := pc), b)
  {
    var status := PackStatus(m.regs.flags, false);
    ThreePushes(m, status);
    BreakMasked(m.regs.flags);
    var pushed := Pushed(Pushed16(m, m.regs.pc), status);
    var (pc, b) := BusRead16(pushed.bus, vector);
    InterruptEntryOf(m, status, vector, pushed, pc, b);
  }

  /**
   * Then a pending NMI, whether or not I is set: vector $FFFA, three bytes
   * pushed, I set, 7 cycles, both interrupt lines cleared.
   */
  lemma NmiServedThird(m: Machine, files: Files, traps: Option<TrapContext>, fuel: nat)
    requires m.Valid() && !m.regs.reset && !m.regs.jam && m.regs.nmi
    ensures var s := ProcessSpec(m, files, traps, fuel);
      var pushed := Pushed(Pushed16(m, m.regs.pc), PackStatus(m.regs.flags, false));
      s.files == files && s.completion == Normal &&
      s.m.regs.pc == BusRead16(pushed.bus, NmiVector).0 && s.m.regs.sp == Wrap8(m.regs.sp - 3) &&
      s.m.regs.flags == m.regs.flags.(interrupt := true) && s.m.regs.cycles == m.regs.cycles + 7 &&
      !s.m.regs.nmi && !s.m.regs.irq
  {
    PreemptedSpec(m, files, traps, fuel);
    InterruptFacts(m, NmiVector);
  }

  /**
   * Last, a pending IRQ with I clear: vector $FFFE, three bytes pushed, I
   * set, the IRQ line cleared, and no cycles counted.
   */
  lemma IrqServedFourth(m: Machine, files: Files, traps: Option<TrapContext>, fuel: nat)
    requires m.Valid() && !m.regs.reset && !m.regs.jam && !m.regs.nmi && m.regs.irq && !m.regs.flags.interrupt
    ensures var s := ProcessSpec(m, files, traps, fuel);
      var pushed := Pushed(Pushed16(m, m.regs.pc), PackStatus(m.regs.flags, false));
      s.files == files && s.completion == Normal &&
      s.m.regs.pc == BusRead16(pushed.bus, IrqVector).0 && s.m.regs.sp == Wrap8(m.regs.sp - 3) &&
      s.m.regs.flags == m.regs.flags.(interrupt := true) && s.m.regs.cycles == m.regs.cycles &&
      !s.m.regs.irq
  {
    PreemptedSpec(m, files, traps, fuel);
    InterruptFacts(m, IrqVector);
  }

  // ---- interrupt entry and RTI ----

  /** SP arithmetic modulo 256: stepping down by `a` then up by `b`. */
  lemma SpSteps(sp: byte, a: nat, b: nat)
    requires a <= 3 && b <= a
    ensures Wrap8(Wrap8(sp - a) + b) == Wrap8(sp - (a - b))
  {
    var s: int := sp;
    if s < a {
      assert Wrap8(s - a) == s - a + 0x100;
    }
  }

  /** A push is one RAM store at $0100 + SP, with SP one lower. */
  lemma PushedStores(m: Machine, v: byte)
    requires m.Valid()
    ensures Pushed(m, v).bus.ram == m.bus.ram[StackPage + m.regs.sp := v]
    ensures Pushed(m, v).regs.sp == Wrap8(m.regs.sp - 1)
  {
    StackIsRam(m.bus, m.regs.sp, v, m.regs.cycles);
  }

  /** The three pushes of interrupt entry, as RAM stores at SP, SP - 1 and SP - 2. */
  lemma ThreeStores(m: Machine, pc: word, status: byte)
    requires m.Valid()
    ensures var sp := m.regs.sp;
      Pushed(Pushed16(m, pc), status).bus.ram ==
        m.bus.ram[StackPage + sp := Hi(pc)][StackPage + Wrap8(sp - 1) := Lo(pc)][StackPage + Wrap8(sp - 2) := status]
  {
    var m1 := Pushed(m, Hi(pc));
    PushedStores(m, Hi(pc));
    var m2 := Pushed(m1, Lo(pc));
    PushedStores(m1, Lo(pc));
    PushedStores(m2, status);
    SpSteps(m.regs.sp, 2, 0);
    assert Wrap8(Wrap8(m.regs.sp - 1) - 1) == Wrap8(m.regs.sp - 2) by {
      Pushed16Sp(m, pc);
    }
  }

  /** Interrupt entry, as far as RAM and SP go: the three stack stores, and SP three down. */
  lemma InterruptStores(m: Machine, vector: word)
    requires m.Valid()
    ensures var sp := m.regs.sp;
      Interrupt(m, vector).regs.sp == Wrap8(sp - 3) &&
      Interrupt(m, vector).bus.ram ==
        m.bus.ram[StackPage + sp := Hi(m.regs.pc)][StackPage + Wrap8(sp - 1) := Lo(m.regs.pc)]
                 [StackPage + Wrap8(sp - 2) := PackStatus(m.regs.flags, false)]
  {
    var status := PackStatus(m.regs.flags, false);
    BreakMasked(m.regs.flags);
    assert Interrupt(m, vector) == InterruptEntry(m, status, vector);
    ThreePushes(m, status);
    var pushed := Pushed(Pushed16(m, m.regs.pc), status);
    var (pc, b) := BusRead16(pushed.bus, vector);
    InterruptEntryOf(m, status, vector, pushed, pc, b);
    ThreeStores(m, m.regs.pc, status);
  }

  /**
   * What interrupt entry leaves on the stack, for any machine `e` whose
   * RAM and SP are those `InterruptStores` gives: the high byte of PC at
   * $0100 + SP, the low byte one below, the status with bit 4 clear two
   * below, and SP three down.
   */
  lemma InterruptStack(m: Machine, e: Machine)
    requires m.Valid()
    requires var sp := m.regs.sp;
      e.regs.sp == Wrap8(sp - 3) &&
      e.bus.ram == m.bus.ram[StackPage + sp := Hi(m.regs.pc)][StackPage + Wrap8(sp - 1) := Lo(m.regs.pc)]
                            [StackPage + Wrap8(sp - 2) := PackStatus(m.regs.flags, false)]
    ensures var sp := m.regs.sp;
      |e.bus.ram| == 0x10000 &&
      e.bus.ram[StackPage + sp] == Hi(m.regs.pc) &&
      e.bus.ram[StackPage + Wrap8(sp - 1)] == Lo(m.regs.pc) &&
      e.bus.ram[StackPage + Wrap8(sp - 2)] == PackStatus(m.regs.flags, false)
  {
    SlotsReadBack(m.bus.ram, m.regs.sp, Hi(m.regs.pc), Lo(m.regs.pc), PackStatus(m.regs.flags, false));
  }

  /** Three stores to the three stack slots of an interrupt each read back as stored. */
  lemma SlotsReadBack(ram: seq<byte>, sp: byte, hi: byte, lo: byte, status: byte)
    requires |ram| == 0x10000
    ensures var r := ram[StackPage + sp := hi][StackPage + Wrap8(sp - 1) := lo][StackPage + Wrap8(sp - 2) := status];
      r[StackPage + sp] == hi && r[StackPage + Wrap8(sp - 1)] == lo && r[StackPage + Wrap8(sp - 2)] == status
  {
    StackSlotsDiffer(sp);
  }

  /** $0100 + SP, SP - 1 and SP - 2 are three different stack slots. */
  lemma StackSlotsDiffer(sp: byte)
    ensures sp != Wrap8(sp - 1) && sp != Wrap8(sp - 2) && Wrap8(sp - 1) != Wrap8(sp - 2)
  {
    SpSteps(sp, 1, 0);
    SpSteps(sp, 2, 0);
  }

  /** RTI pulls the status from SP + 1 and PC from SP + 2 (low) and SP + 3 (high), all plain RAM. */
  lemma RtiPulls(h: Machine)
    requires h.Valid()
    ensures var r := RtiStep(h);
      var sp: int := h.regs.sp;
      r.regs.flags == UnpackStatus(h.bus.ram[StackPage + Wrap8(sp + 1)]) &&
      r.regs.pc == Word(h.bus.ram[StackPage + Wrap8(sp + 2)], h.bus.ram[StackPage + Wrap8(sp + 3)]) &&
      r.regs.sp == Wrap8(sp + 3)
  {
    var sp: int := h.regs.sp;
    var (status, h1) := Popped(h);
    StackIsRam(h.bus, Wrap8(sp + 1), 0, 0);
    var h2 := h1.(regs := h1.regs.(flags := UnpackStatus(status)));
    var sp1 := Wrap8(sp + 1);
    var sp2 := Wrap8(sp1 as int + 1);
    StackIsRam(h2.bus, sp2, 0, 0);
    var (lo, h3) := Popped(h2);
    StackIsRam(h3.bus, Wrap8(sp2 as int + 1), 0, 0);
    assert sp2 == Wrap8(sp + 2);
    assert Wrap8(sp2 as int + 1) == Wrap8(sp + 3);
  }

  /**
   * RTI undoes interrupt entry: once the handler has put SP back where the
   * entry left it, three below the interrupted program's SP, and the three
   * bytes `InterruptStores` says the entry stacked are still there, RTI
   * restores the interrupted program's PC, SP and every flag. Bits 4 and 5
   * of the pulled status have no flag to restore.
   */
  lemma InterruptThenRti(m: Machine, h: Machine)
    requires m.Valid() && h.Valid()
    requires h.regs.sp == Wrap8(m.regs.sp - 3)
    requires var sp := m.regs.sp;
      h.bus.ram[StackPage + sp] == Hi(m.regs.pc) &&
      h.bus.ram[StackPage + Wrap8(sp - 1)] == Lo(m.regs.pc) &&
      h.bus.ram[StackPage + Wrap8(sp - 2)] == PackStatus(m.regs.flags, false)
    ensures var r := RtiStep(h);
      r.regs.pc == m.regs.pc && r.regs.sp == m.regs.sp && r.regs.flags == m.regs.flags
  {
    var sp := m.regs.sp;
    var hsp: int := h.regs.sp;
    SpSteps(sp, 3, 1);
    SpSteps(sp, 3, 2);
    SpSteps(sp, 3, 3);
    assert h.bus.ram[StackPage + Wrap8(hsp + 1)] == PackStatus(m.regs.flags, false);
    assert h.bus.ram[StackPage + Wrap8(hsp + 2)] == Lo(m.regs.pc);
    assert h.bus.ram[StackPage + Wrap8(hsp + 3)] == Hi(m.regs.pc);
    assert Wrap8(hsp + 3) == sp by {
      assert Wrap8(sp - 0) == sp;
    }
    RtiPulls(h);
    UnpackPack(m.regs.flags, false);
    WordOfHalves(m.regs.pc);
  }

  /** RTI as the handler's first instruction returns straight to the interrupted program. */
  lemma EntryThenRti(m: Machine, vector: word)
    requires m.Valid()
    ensures var r := RtiStep(Interrupt(m, vector));
      r.regs.pc == m.regs.pc && r.regs.sp == m.regs.sp && r.regs.flags == m.regs.flags
  {
    InterruptStores(m, vector);
    InterruptStack(m, Interrupt(m, vector));
    InterruptThenRti(m, Interrupt(m, vector));
  }

  // ---- the KERNAL trap ----

  /** `Pop16` reads only SP and RAM: two machines that agree on both pull the same word to the same SP. */
  lemma Popped16OnRam(m: Machine, m': Machine)
    requires m.Valid() && m'.Valid() && m.bus.ram == m'.bus.ram && m.regs.sp == m'.regs.sp
    ensures Popped16(m).0 == Popped16(m').0 && Popped16(m).1.regs.sp == Popped16(m').1.regs.sp
  {
    var sp1: byte := Wrap8(m.regs.sp + 1);
    var sp2: byte := Wrap8(sp1 as int + 1);
    StackIsRam(m.bus, sp1, 0, 0);
    StackIsRam(m'.bus, sp1, 0, 0);
    StackIsRam(m.bus, sp2, 0, 0);
    StackIsRam(m'.bus, sp2, 0, 0);
  }

  /** `Pop16` moves SP two bytes up, wrapping within page 1. */
  lemma Popped16Sp(m: Machine)
    requires m.Valid()
    ensures Popped16(m).1.regs.sp == Wrap8(m.regs.sp + 2)
  {
  }

  /**
   * With a trap handler registered and PC at $FF00 or above, `Process` runs
   * the handler on the fetched state (PC, A, X, Y) and then an RTS: PC
   * becomes one past the word on top of the stack the handler leaves, SP
   * moves two bytes up, A is the handler's, six cycles are counted. A
   * handler that does not end normally stops there, PC still in the trap.
   */
  lemma TrapEndsWithRts(m: Machine, files: Files, tc: TrapContext, fuel: nat)
    requires m.Valid() && !Preempted(m.regs) && m.regs.pc >= 0xff00
    ensures var f := Fetched(m);
      var t := TrapSpec(tc.diskType, tc.data, f.bus, files, m.regs.pc, m.regs.a, m.regs.x, m.regs.y, fuel);
      var handled := Machine(f.regs.(a := t.a), t.bus);
      var s := ProcessSpec(m, files, Some(tc), fuel);
      s.files == t.files && s.completion == t.completion &&
      (t.completion == Normal ==>
        s.m.regs.pc == ReturnAddress(Popped16(handled).0) && s.m.regs.sp == Wrap8(m.regs.sp + 2) &&
        s.m.regs.a == t.a && s.m.regs.cycles == m.regs.cycles + 6) &&
      (t.completion != Normal ==> s.m == handled && s.m.regs.pc == m.regs.pc)
  {
    InstructionSpec(m, files, Some(tc), fuel);
    var f := Fetched(m);
    var t := TrapSpec(tc.diskType, tc.data, f.bus, files, m.regs.pc, m.regs.a, m.regs.x, m.regs.y, fuel);
    var handled := Machine(f.regs.(a := t.a), t.bus);
    if t.completion == Normal {
      var m1 := handled.(regs := handled.regs.(opcode := 0x60));
      var fo := FetchOperands(m1);
      CallReturnOpcodes();
      assert ExecuteFetched(m1) == Execute(fo, Decoded(RTS, 6));
      RtsEffect(fo);
      Popped16OnRam(fo, handled);
      Popped16Sp(handled);
    }
  }

  // ---- jam ----

  /** The twelve KIL opcodes are table entries that jam and count no cycles. */
  lemma KilEntries(opcode: byte)
    requires opcode in {0x02, 0x12, 0x22, 0x32, 0x42, 0x52, 0x62, 0x72, 0x92, 0xb2, 0xd2, 0xf2}
    ensures Decode(opcode) == Decoded(KIL, 0)
  {
    if opcode < 0x50 {
      KilLow(opcode);
    } else if opcode < 0x90 {
      KilMiddle(opcode);
    } else {
      KilHigh(opcode);
    }
  }

  /** The KIL entries below $50. */
  lemma KilLow(opcode: byte)
    requires opcode in {0x02, 0x12, 0x22, 0x32, 0x42}
    ensures Decode(opcode) == Decoded(KIL, 0)
  {
    if opcode == 0x02 {} else if opcode == 0x12 {} else if opcode == 0x22 {} else if opcode == 0x32 {} else {}
  }

  /** The KIL entries from $50 to $8F. */
  lemma KilMiddle(opcode: byte)
    requires opcode in {0x52, 0x62, 0x72}
    ensures Decode(opcode) == Decoded(KIL, 0)
  {
    if opcode == 0x52 {} else if opcode == 0x62 {} else {}
  }

  /** The KIL entries from $90 up. */
  lemma KilHigh(opcode: byte)
    requires opcode in {0x92, 0xb2, 0xd2, 0xf2}
    ensures Decode(opcode) == Decoded(KIL, 0)
  {
    if opcode == 0x92 {} else if opcode == 0xb2 {} else if opcode == 0xd2 {} else {}
  }

  /** No other opcode jams. */
  lemma KilOnlyThere(opcode: byte)
    requires Decode(opcode).ins == KIL
    ensures opcode in {0x02, 0x12, 0x22, 0x32, 0x42, 0x52, 0x62, 0x72, 0x92, 0xb2, 0xd2, 0xf2}
  {
  }

  /**
   * A KIL opcode sets jam and changes nothing else: PC stays on it and no
   * cycles are counted. From then on, until a reset, `Process` only drops
   * pending interrupts.
   */
  lemma KilJams(m: Machine, opcode: byte, files: Files, traps: Option<TrapContext>, fuel: nat)
    requires m.Valid() && Decode(opcode).ins == KIL
    ensures var m1 := Execute(m, Decode(opcode));
      m1 == m.(regs := m.regs.(jam := true)) &&
      (!m1.regs.reset ==>
        ProcessSpec(m1, files, traps, fuel) == Step(m1.(regs := m1.regs.(nmi := false, irq := false)), files, Normal))
  {
    KilOnlyThere(opcode);
    KilEntries(opcode);
    var m1 := Execute(m, Decode(opcode));
    if !m1.regs.reset {
      JamServedSecond(m1, files, traps, fuel);
    }
  }

  /** The 165 opcodes the instruction table lists, the official NOP $EA among them. */
  predicate Listed(opcode: byte) {
    opcode == 0x69 || opcode == 0x65 || opcode == 0x75 || opcode == 0x6d || opcode == 0x7d ||
    opcode == 0x79 || opcode == 0x61 || opcode == 0x71 || opcode == 0x29 || opcode == 0x25 ||
    opcode == 0x35 || opcode == 0x2d || opcode == 0x3d || opcode == 0x39 || opcode == 0x21 ||
    opcode == 0x31 || opcode == 0x0a || opcode == 0x06 || opcode == 0x16 || opcode == 0x0e ||
    opcode == 0x1e || opcode == 0x90 || opcode == 0xb0 || opcode == 0xf0 || opcode == 0x30 ||
    opcode == 0xd0 || opcode == 0x10 || opcode == 0x50 || opcode == 0x70 || opcode == 0x24 ||
    opcode == 0x2c || opcode == 0x00 || opcode == 0x18 || opcode == 0xd8 || opcode == 0x58 ||
    opcode == 0xb8 || opcode == 0xc9 || opcode == 0xc5 || opcode == 0xd5 || opcode == 0xcd ||
    opcode == 0xdd || opcode == 0xd9 || opcode == 0xc1 || opcode == 0xd1 || opcode == 0xe0 ||
    opcode == 0xe4 || opcode == 0xec || opcode == 0xc0 || opcode == 0xc4 || opcode == 0xcc ||
    opcode == 0xc6 || opcode == 0xd6 || opcode == 0xce || opcode == 0xde || opcode == 0xca ||
    opcode == 0x88 || opcode == 0x49 || opcode == 0x45 || opcode == 0x55 || opcode == 0x4d ||
    opcode == 0x5d || opcode == 0x59 || opcode == 0x41 || opcode == 0x51 || opcode == 0xe6 ||
    opcode == 0xf6 || opcode == 0xee || opcode == 0xfe || opcode == 0xe8 || opcode == 0xc8 ||
    opcode == 0x4c || opcode == 0x6c || opcode == 0x20 || opcode == 0xa9 || opcode == 0xa5 ||
    opcode == 0xb5 || opcode == 0xad || opcode == 0xbd || opcode == 0xb9 || opcode == 0xa1 ||
    opcode == 0xb1 || opcode == 0xa2 || opcode == 0xa6 || opcode == 0xb6 || opcode == 0xae ||
    opcode == 0xbe || opcode == 0xa0 || opcode == 0xa4 || opcode == 0xb4 || opcode == 0xac ||
    opcode == 0xbc || opcode == 0x4a || opcode == 0x46 || opcode == 0x56 || opcode == 0x4e ||
    opcode == 0x5e || opcode == 0xea || opcode == 0x09 || opcode == 0x05 || opcode == 0x15 ||
    opcode == 0x0d || opcode == 0x1d || opcode == 0x19 || opcode == 0x01 || opcode == 0x11 ||
    opcode == 0x48 || opcode == 0x08 || opcode == 0x68 || opcode == 0x28 || opcode == 0x2a ||
    opcode == 0x26 || opcode == 0x36 || opcode == 0x2e || opcode == 0x3e || opcode == 0x6a ||
    opcode == 0x66 || opcode == 0x76 || opcode == 0x6e || opcode == 0x7e || opcode == 0x40 ||
    opcode == 0x60 || opcode == 0xe9 || opcode == 0xe5 || opcode == 0xf5 || opcode == 0xed ||
    opcode == 0xfd || opcode == 0xf9 || opcode == 0xe1 || opcode == 0xf1 || opcode == 0x38 ||
    opcode == 0xf8 || opcode == 0x78 || opcode == 0x85 || opcode == 0x95 || opcode == 0x8d ||
    opcode == 0x9d || opcode == 0x99 || opcode == 0x81 || opcode == 0x91 || opcode == 0x86 ||
    opcode == 0x96 || opcode == 0x8e || opcode == 0x84 || opcode == 0x94 || opcode == 0x8c ||
    opcode == 0xaa || opcode == 0xa8 || opcode == 0xba || opcode == 0x8a || opcode == 0x9a ||
    opcode == 0x98 || opcode == 0x0b || opcode == 0x2b || opcode == 0x02 || opcode == 0x12 ||
    opcode == 0x22 || opcode == 0x32 || opcode == 0x42 || opcode == 0x52 || opcode == 0x62 ||
    opcode == 0x72 || opcode == 0x92 || opcode == 0xb2 || opcode == 0xd2 || opcode == 0xf2
  }

  /**
   * Every opcode the table does not list ($FF, $1A, $80, ...) falls to the
   * default case and runs as NOP: one byte, two cycles.
   */
  lemma UnlistedOpcodeIsNop(m: Machine, opcode: byte)
    requires m.Valid() && !Listed(opcode)
    ensures Decode(opcode) == Decoded(Implied(NOP), 2)
    ensures Execute(m, Decode(opcode)) ==
      m.(regs := m.regs.(pc := Wrap16(m.regs.pc + 1), cycles := m.regs.cycles + 2))
  {
  }

  /** `Listed` is exactly the table: every listed opcode but $EA decodes to something other than the default NOP. */
  lemma ListedIsTable(opcode: byte)
    requires Listed(opcode) && opcode != 0xea
    ensures Decode(opcode) != Decoded(Implied(NOP), 2)
  {
  }
}
