// The processor (`MOS6502`): registers and flags, the stack in page 1, the
// addressing modes with their page-crossing penalties, the opcode table, and
// `Process`, which services a pending reset, jam, NMI or IRQ or else runs
// one instruction (or, with a KERNAL trap registered and PC at $FF00 or
// above, runs the trap and returns with an RTS).
//
// The value-level `Machine` (registers and bus) is what the instructions
// are specified on; the `Mos6502` class is proved against it.
module Cpu {
  import opened Bits
  import opened Alu
  import opened Memory
  import Disk
  import opened Kernal

  datatype Registers = Registers(
    a: byte, x: byte, y: byte, sp: byte, pc: word, flags: Flags,
    nmi: bool, irq: bool, reset: bool, jam: bool, cycles: int,
    /** `Opcode`, `OpcodeData` and `OpcodeAddress`: the last opcode and the two bytes after it. */
    opcode: byte, data: byte, address: word)

  datatype Machine = Machine(regs: Registers, bus: Bus)
  {
    predicate Valid() { bus.Valid() }
  }

  const StackPage: nat := 0x100
  const NmiVector: word := 0xfffa
  const ResetVector: word := 0xfffc
  const IrqVector: word := 0xfffe

  function AddCycles(r: Registers, n: int): Registers { r.(cycles := r.cycles + n) }

  // ---- the stack ----

  /** `Push`: store at `$0100 | SP` (a banked write at the current cycle count), then SP decrements. */
  function Pushed(m: Machine, v: byte): (m': Machine)
    requires m.Valid()
    ensures m'.Valid()
  {
    Machine(m.regs.(sp := Wrap8(m.regs.sp - 1)), BusWrite(m.bus, StackPage + m.regs.sp, v, m.regs.cycles))
  }

  /** `Push16`: high byte first. */
  function Pushed16(m: Machine, v: word): (m': Machine)
    requires m.Valid()
    ensures m'.Valid()
  {
    Pushed(Pushed(m, Hi(v)), Lo(v))
  }

  /** `Pop`: SP increments, then a banked read at `$0100 | SP`. */
  function Popped(m: Machine): (r: (byte, Machine))
    requires m.Valid()
    ensures r.1.Valid()
  {
    var sp := Wrap8(m.regs.sp + 1);
    var (v, b) := BusRead(m.bus, StackPage + sp);
    (v, Machine(m.regs.(sp := sp), b))
  }

  /** `Pop16`: low byte first. */
  function Popped16(m: Machine): (r: (word, Machine))
    requires m.Valid()
    ensures r.1.Valid()
  {
    var (lo, m1) := Popped(m);
    var (hi, m2) := Popped(m1);
    (Word(lo, hi), m2)
  }

  // ---- addressing ----

  datatype Mode = Immediate | ZeroPage | ZeroPageX | ZeroPageY | Absolute | AbsoluteX | AbsoluteY
                | IndirectX | IndirectY

  /** Instruction length in bytes. */
  function Length(mode: Mode): nat {
    if mode == Absolute || mode == AbsoluteX || mode == AbsoluteY then 3 else 2
  }

  /** `CheckPageBoundaries`: `(a & $FF00) != (b & $FF00)`. */
  predicate PageCrossed(a: word, b: word) { Hi(a) != Hi(b) }

  /** One extra cycle when `check` is set and `base` and `target` lie in different pages. */
  function PagePenalty(r: Registers, check: bool, base: word, target: word): Registers {
    if check && PageCrossed(base, target) then AddCycles(r, 1) else r
  }

  /**
   * The effective address of a memory operand: zero page indices wrap within
   * page 0, absolute indices wrap at $FFFF, (zp,X) reads its pointer at the
   * wrapped zero page address, (zp),Y adds Y to the pointer read at `data`.
   * Only indexed absolute and (zp),Y modes count a page penalty, when asked.
   */
  function EffectiveAddress(m: Machine, mode: Mode, check: bool): (r: (word, Machine))
    requires m.Valid() && mode != Immediate
    ensures r.1.Valid()
  {
    match mode
    case ZeroPage => (m.regs.data, m)
    case ZeroPageX => ((m.regs.data + m.regs.x) % 0x100, m)
    case ZeroPageY => ((m.regs.data + m.regs.y) % 0x100, m)
    case Absolute => (m.regs.address, m)
    case AbsoluteX => IndexedAbsolute(m, m.regs.x, check)
    case AbsoluteY => IndexedAbsolute(m, m.regs.y, check)
    case IndirectX => IndexedIndirect(m)
    case IndirectY => IndirectIndexed(m, check)
  }

  /** `base` plus an index, wrapping at $FFFF, with the page penalty when asked. */
  function Indexed(m: Machine, base: word, index: byte, check: bool): (r: (word, Machine))
    requires m.Valid()
    ensures r.1.Valid()
  {
    var t := Wrap16(base + index);
    (t, m.(regs := PagePenalty(m.regs, check, base, t)))
  }

  /** `AbsoluteX`/`AbsoluteY`: the operand address plus the index. */
  function IndexedAbsolute(m: Machine, index: byte, check: bool): (r: (word, Machine))
    requires m.Valid()
    ensures r.1.Valid()
  {
    Indexed(m, m.regs.address, index, check)
  }

  /**
   * The 16-bit pointer stored at the zero page address `zp`. Its high byte
   * comes from `zp + 1` unwrapped: $0100 when `zp` is $FF.
   */
  function PointerAt(m: Machine, zp: byte): (r: (word, Machine))
    requires m.Valid()
    ensures r.1.Valid()
  {
    var (t, b) := BusRead16(m.bus, zp);
    (t, Machine(m.regs, b))
  }

  /** `IndirectX`: the pointer at `data + X`; only that sum wraps within page 0. */
  function IndexedIndirect(m: Machine): (r: (word, Machine))
    requires m.Valid()
    ensures r.1.Valid()
  {
    PointerAt(m, (m.regs.data + m.regs.x) % 0x100)
  }

  /** `IndirectY`: the pointer at `data`, plus Y. */
  function IndirectIndexed(m: Machine, check: bool): (r: (word, Machine))
    requires m.Valid()
    ensures r.1.Valid()
  {
    var (p, m1) := PointerAt(m, m.regs.data);
    Indexed(m1, p, m.regs.y, check)
  }

  /** The operand byte of a reading instruction: `data` itself, or a banked read at the target. */
  function OperandOf(m: Machine, mode: Mode): (r: (byte, Machine))
    requires m.Valid()
    ensures r.1.Valid()
  {
    if mode == Immediate then (m.regs.data, m)
    else
      var (t, m1) := EffectiveAddress(m, mode, true);
      var (v, b) := BusRead(m1.bus, t);
      (v, m1.(bus := b))
  }

  // ---- the instruction set ----

  datatype LoadOp = ADC | AND | ANC | BIT | CMP | CPX | CPY | EOR | LDA | LDX | LDY | ORA | SBC
  datatype Register = RegA | RegX | RegY
  datatype Condition = OnCarry | OnZero | OnOverflow | OnNegative
  datatype ImpliedOp = CLC | CLD | CLI | CLV | SEC | SED | SEI | DEX | DEY | INX | INY
                     | TAX | TAY | TSX | TXA | TXS | TYA | NOP

  datatype Instruction =
    | Load(op: LoadOp, mode: Mode)
    | ModifyMemory(mop: ModifyOp, mode: Mode)
    | ModifyA(mop: ModifyOp)
    | Store(reg: Register, mode: Mode)
    | Branch(flag: Condition, when: bool)
    | Implied(iop: ImpliedOp)
    | PHA | PHP | PLA | PLP | BRK | JMP | JMPI | JSR | RTI | RTS | KIL

  /** An opcode's instruction and the cycles `Process` counts for it at the end. */
  datatype Decoded = Decoded(ins: Instruction, cycles: nat)

  /** The opcode switch of `Process`, as a table. */
  function Decode(opcode: byte): Decoded {
    match opcode
    // ADC
    case 0x69 => Decoded(Load(ADC, Immediate), 2)
    case 0x65 => Decoded(Load(ADC, ZeroPage), 3)
    case 0x75 => Decoded(Load(ADC, ZeroPageX), 4)
    case 0x6d => Decoded(Load(ADC, Absolute), 4)
    case 0x7d => Decoded(Load(ADC, AbsoluteX), 4)
    case 0x79 => Decoded(Load(ADC, AbsoluteY), 4)
    case 0x61 => Decoded(Load(ADC, IndirectX), 6)
    case 0x71 => Decoded(Load(ADC, IndirectY), 5)
    // AND, with its zero page timings as written
    case 0x29 => Decoded(Load(AND, Immediate), 2)
    case 0x25 => Decoded(Load(AND, ZeroPage), 2)
    case 0x35 => Decoded(Load(AND, ZeroPageX), 3)
    case 0x2d => Decoded(Load(AND, Absolute), 4)
    case 0x3d => Decoded(Load(AND, AbsoluteX), 4)
    case 0x39 => Decoded(Load(AND, AbsoluteY), 4)
    case 0x21 => Decoded(Load(AND, IndirectX), 6)
    case 0x31 => Decoded(Load(AND, IndirectY), 5)
    // ASL
    case 0x0a => Decoded(ModifyA(ASL), 2)
    case 0x06 => Decoded(ModifyMemory(ASL, ZeroPage), 5)
    case 0x16 => Decoded(ModifyMemory(ASL, ZeroPageX), 6)
    case 0x0e => Decoded(ModifyMemory(ASL, Absolute), 6)
    case 0x1e => Decoded(ModifyMemory(ASL, AbsoluteX), 7)
    // branches
    case 0x90 => Decoded(Branch(OnCarry, false), 2)
    case 0xb0 => Decoded(Branch(OnCarry, true), 2)
    case 0xf0 => Decoded(Branch(OnZero, true), 2)
    case 0x30 => Decoded(Branch(OnNegative, true), 2)
    case 0xd0 => Decoded(Branch(OnZero, false), 2)
    case 0x10 => Decoded(Branch(OnNegative, false), 2)
    case 0x50 => Decoded(Branch(OnOverflow, false), 2)
    case 0x70 => Decoded(Branch(OnOverflow, true), 2)
    // BIT
    case 0x24 => Decoded(Load(BIT, ZeroPage), 3)
    case 0x2c => Decoded(Load(BIT, Absolute), 4)
    case 0x00 => Decoded(BRK, 7)
    // flags
    case 0x18 => Decoded(Implied(CLC), 2)
    case 0xd8 => Decoded(Implied(CLD), 2)
    case 0x58 => Decoded(Implied(CLI), 2)
    case 0xb8 => Decoded(Implied(CLV), 2)
    // CMP
    case 0xc9 => Decoded(Load(CMP, Immediate), 2)
    case 0xc5 => Decoded(Load(CMP, ZeroPage), 3)
    case 0xd5 => Decoded(Load(CMP, ZeroPageX), 4)
    case 0xcd => Decoded(Load(CMP, Absolute), 4)
    case 0xdd => Decoded(Load(CMP, AbsoluteX), 4)
    case 0xd9 => Decoded(Load(CMP, AbsoluteY), 4)
    case 0xc1 => Decoded(Load(CMP, IndirectX), 6)
    case 0xd1 => Decoded(Load(CMP, IndirectY), 5)
    // CPX, CPY
    case 0xe0 => Decoded(Load(CPX, Immediate), 2)
    case 0xe4 => Decoded(Load(CPX, ZeroPage), 3)
    case 0xec => Decoded(Load(CPX, Absolute), 4)
    case 0xc0 => Decoded(Load(CPY, Immediate), 2)
    case 0xc4 => Decoded(Load(CPY, ZeroPage), 3)
    case 0xcc => Decoded(Load(CPY, Absolute), 4)
    // DEC, DEX, DEY
    case 0xc6 => Decoded(ModifyMemory(DEC, ZeroPage), 5)
    case 0xd6 => Decoded(ModifyMemory(DEC, ZeroPageX), 6)
    case 0xce => Decoded(ModifyMemory(DEC, Absolute), 6)
    case 0xde => Decoded(ModifyMemory(DEC, AbsoluteX), 7)
    case 0xca => Decoded(Implied(DEX), 2)
    case 0x88 => Decoded(Implied(DEY), 2)
    // EOR
    case 0x49 => Decoded(Load(EOR, Immediate), 2)
    case 0x45 => Decoded(Load(EOR, ZeroPage), 3)
    case 0x55 => Decoded(Load(EOR, ZeroPageX), 4)
    case 0x4d => Decoded(Load(EOR, Absolute), 4)
    case 0x5d => Decoded(Load(EOR, AbsoluteX), 4)
    case 0x59 => Decoded(Load(EOR, AbsoluteY), 4)
    case 0x41 => Decoded(Load(EOR, IndirectX), 6)
    case 0x51 => Decoded(Load(EOR, IndirectY), 5)
    // INC, INX, INY
    case 0xe6 => Decoded(ModifyMemory(INC, ZeroPage), 5)
    case 0xf6 => Decoded(ModifyMemory(INC, ZeroPageX), 6)
    case 0xee => Decoded(ModifyMemory(INC, Absolute), 6)
    case 0xfe => Decoded(ModifyMemory(INC, AbsoluteX), 7)
    case 0xe8 => Decoded(Implied(INX), 2)
    case 0xc8 => Decoded(Implied(INY), 2)
    // jumps
    case 0x4c => Decoded(JMP, 3)
    case 0x6c => Decoded(JMPI, 5)
    case 0x20 => Decoded(JSR, 6)
    // LDA
    case 0xa9 => Decoded(Load(LDA, Immediate), 2)
    case 0xa5 => Decoded(Load(LDA, ZeroPage), 3)
    case 0xb5 => Decoded(Load(LDA, ZeroPageX), 4)
    case 0xad => Decoded(Load(LDA, Absolute), 4)
    case 0xbd => Decoded(Load(LDA, AbsoluteX), 4)
    case 0xb9 => Decoded(Load(LDA, AbsoluteY), 4)
    case 0xa1 => Decoded(Load(LDA, IndirectX), 6)
    case 0xb1 => Decoded(Load(LDA, IndirectY), 5)
    // LDX
    case 0xa2 => Decoded(Load(LDX, Immediate), 2)
    case 0xa6 => Decoded(Load(LDX, ZeroPage), 3)
    case 0xb6 => Decoded(Load(LDX, ZeroPageY), 4)
    case 0xae => Decoded(Load(LDX, Absolute), 4)
    case 0xbe => Decoded(Load(LDX, AbsoluteY), 4)
    // LDY
    case 0xa0 => Decoded(Load(LDY, Immediate), 2)
    case 0xa4 => Decoded(Load(LDY, ZeroPage), 3)
    case 0xb4 => Decoded(Load(LDY, ZeroPageX), 4)
    case 0xac => Decoded(Load(LDY, Absolute), 4)
    case 0xbc => Decoded(Load(LDY, AbsoluteX), 4)
    // LSR
    case 0x4a => Decoded(ModifyA(LSR), 2)
    case 0x46 => Decoded(ModifyMemory(LSR, ZeroPage), 5)
    case 0x56 => Decoded(ModifyMemory(LSR, ZeroPageX), 6)
    case 0x4e => Decoded(ModifyMemory(LSR, Absolute), 6)
    case 0x5e => Decoded(ModifyMemory(LSR, AbsoluteX), 7)
    case 0xea => Decoded(Implied(NOP), 2)
    // ORA
    case 0x09 => Decoded(Load(ORA, Immediate), 2)
    case 0x05 => Decoded(Load(ORA, ZeroPage), 3)
    case 0x15 => Decoded(Load(ORA, ZeroPageX), 4)
    case 0x0d => Decoded(Load(ORA, Absolute), 4)
    case 0x1d => Decoded(Load(ORA, AbsoluteX), 4)
    case 0x19 => Decoded(Load(ORA, AbsoluteY), 4)
    case 0x01 => Decoded(Load(ORA, IndirectX), 6)
    case 0x11 => Decoded(Load(ORA, IndirectY), 5)
    // stack
    case 0x48 => Decoded(PHA, 3)
    case 0x08 => Decoded(PHP, 3)
    case 0x68 => Decoded(PLA, 4)
    case 0x28 => Decoded(PLP, 4)
    // ROL
    case 0x2a => Decoded(ModifyA(ROL), 2)
    case 0x26 => Decoded(ModifyMemory(ROL, ZeroPage), 5)
    case 0x36 => Decoded(ModifyMemory(ROL, ZeroPageX), 6)
    case 0x2e => Decoded(ModifyMemory(ROL, Absolute), 6)
    case 0x3e => Decoded(ModifyMemory(ROL, AbsoluteX), 7)
    // ROR
    case 0x6a => Decoded(ModifyA(ROR), 2)
    case 0x66 => Decoded(ModifyMemory(ROR, ZeroPage), 5)
    case 0x76 => Decoded(ModifyMemory(ROR, ZeroPageX), 6)
    case 0x6e => Decoded(ModifyMemory(ROR, Absolute), 6)
    case 0x7e => Decoded(ModifyMemory(ROR, AbsoluteX), 7)
    case 0x40 => Decoded(RTI, 6)
    case 0x60 => Decoded(RTS, 6)
    // SBC
    case 0xe9 => Decoded(Load(SBC, Immediate), 2)
    case 0xe5 => Decoded(Load(SBC, ZeroPage), 3)
    case 0xf5 => Decoded(Load(SBC, ZeroPageX), 4)
    case 0xed => Decoded(Load(SBC, Absolute), 4)
    case 0xfd => Decoded(Load(SBC, AbsoluteX), 4)
    case 0xf9 => Decoded(Load(SBC, AbsoluteY), 4)
    case 0xe1 => Decoded(Load(SBC, IndirectX), 6)
    case 0xf1 => Decoded(Load(SBC, IndirectY), 5)
    case 0x38 => Decoded(Implied(SEC), 2)
    case 0xf8 => Decoded(Implied(SED), 2)
    case 0x78 => Decoded(Implied(SEI), 2)
    // STA, STX, STY
    case 0x85 => Decoded(Store(RegA, ZeroPage), 3)
    case 0x95 => Decoded(Store(RegA, ZeroPageX), 4)
    case 0x8d => Decoded(Store(RegA, Absolute), 4)
    case 0x9d => Decoded(Store(RegA, AbsoluteX), 5)
    case 0x99 => Decoded(Store(RegA, AbsoluteY), 5)
    case 0x81 => Decoded(Store(RegA, IndirectX), 6)
    case 0x91 => Decoded(Store(RegA, IndirectY), 6)
    case 0x86 => Decoded(Store(RegX, ZeroPage), 3)
    case 0x96 => Decoded(Store(RegX, ZeroPageY), 4)
    case 0x8e => Decoded(Store(RegX, Absolute), 4)
    case 0x84 => Decoded(Store(RegY, ZeroPage), 3)
    case 0x94 => Decoded(Store(RegY, ZeroPageX), 4)
    case 0x8c => Decoded(Store(RegY, Absolute), 4)
    // transfers
    case 0xaa => Decoded(Implied(TAX), 2)
    case 0xa8 => Decoded(Implied(TAY), 2)
    case 0xba => Decoded(Implied(TSX), 2)
    case 0x8a => Decoded(Implied(TXA), 2)
    case 0x9a => Decoded(Implied(TXS), 2)
    case 0x98 => Decoded(Implied(TYA), 2)
    // illegal opcodes: ANC, KIL
    case 0x0b => Decoded(Load(ANC, Immediate), 2)
    case 0x2b => Decoded(Load(ANC, Immediate), 2)
    case 0x02 => Decoded(KIL, 0)
    case 0x12 => Decoded(KIL, 0)
    case 0x22 => Decoded(KIL, 0)
    case 0x32 => Decoded(KIL, 0)
    case 0x42 => Decoded(KIL, 0)
    case 0x52 => Decoded(KIL, 0)
    case 0x62 => Decoded(KIL, 0)
    case 0x72 => Decoded(KIL, 0)
    case 0x92 => Decoded(KIL, 0)
    case 0xb2 => Decoded(KIL, 0)
    case 0xd2 => Decoded(KIL, 0)
    case 0xf2 => Decoded(KIL, 0)
    // every other opcode runs as NOP
    case _ => Decoded(Implied(NOP), 2)
  }

  // ---- instruction semantics ----

  function RegisterValue(r: Registers, reg: Register): byte {
    match reg
    case RegA => r.a
    case RegX => r.x
    case RegY => r.y
  }

  predicate FlagValue(f: Flags, c: Condition) {
    match c
    case OnCarry => f.carry
    case OnZero => f.zero
    case OnOverflow => f.overflow
    case OnNegative => f.negative
  }

  /** What a reading instruction does with its operand `v`. */
  function ApplyLoad(r: Registers, op: LoadOp, v: byte): Registers {
    match op
    case ADC => var res := Adc(r.a, v, r.flags); r.(a := res.a, flags := res.f)
    case SBC => var res := Sbc(r.a, v, r.flags); r.(a := res.a, flags := res.f)
    case AND => var n := And8(r.a, v); r.(a := n, flags := SetZN(r.flags, n))
    case ANC =>
      var n := And8(r.a, v);
      var f := SetZN(r.flags, n);
      r.(a := n, flags := f.(carry := f.negative))
    case ORA => var n := Or8(r.a, v); r.(a := n, flags := SetZN(r.flags, n))
    case EOR => var n := Xor8(r.a, v); r.(a := n, flags := SetZN(r.flags, n))
    case BIT =>
      r.(flags := r.flags.(overflow := Bit(v, 0x40), negative := Bit(v, 0x80), zero := And8(v, r.a) == 0))
    case CMP => r.(flags := Compare(r.flags, r.a, v))
    case CPX => r.(flags := Compare(r.flags, r.x, v))
    case CPY => r.(flags := Compare(r.flags, r.y, v))
    case LDA => r.(a := v, flags := SetZN(r.flags, v))
    case LDX => r.(x := v, flags := SetZN(r.flags, v))
    case LDY => r.(y := v, flags := SetZN(r.flags, v))
  }

  /** The one-byte instructions that only touch registers. */
  function ApplyImplied(r: Registers, op: ImpliedOp): Registers {
    match op
    case CLC => r.(flags := r.flags.(carry := false))
    case CLD => r.(flags := r.flags.(decimal := false))
    case CLI => r.(flags := r.flags.(interrupt := false))
    case CLV => r.(flags := r.flags.(overflow := false))
    case SEC => r.(flags := r.flags.(carry := true))
    case SED => r.(flags := r.flags.(decimal := true))
    case SEI => r.(flags := r.flags.(interrupt := true))
    case DEX => var (n, f) := Modify(DEC, r.x, r.flags); r.(x := n, flags := f)
    case DEY => var (n, f) := Modify(DEC, r.y, r.flags); r.(y := n, flags := f)
    case INX => var (n, f) := Modify(INC, r.x, r.flags); r.(x := n, flags := f)
    case INY => var (n, f) := Modify(INC, r.y, r.flags); r.(y := n, flags := f)
    case TAX => r.(x := r.a, flags := SetZN(r.flags, r.a))
    case TAY => r.(y := r.a, flags := SetZN(r.flags, r.a))
    case TSX => r.(x := r.sp, flags := SetZN(r.flags, r.sp))
    case TXA => r.(a := r.x, flags := SetZN(r.flags, r.x))
    case TXS => r.(sp := r.x)
    case TYA => r.(a := r.y, flags := SetZN(r.flags, r.y))
    case NOP => r
  }

  function AdvancePc(m: Machine, n: nat): Machine {
    m.(regs := m.regs.(pc := Wrap16(m.regs.pc + n)))
  }

  /** A reading instruction: PC moves past it, the operand is fetched, the operation applied. */
  function LoadStep(m: Machine, op: LoadOp, mode: Mode): (m': Machine)
    requires m.Valid()
    ensures m'.Valid()
  {
    var (v, m1) := OperandOf(AdvancePc(m, Length(mode)), mode);
    m1.(regs := ApplyLoad(m1.regs, op, v))
  }

  /** A read-modify-write on memory: a banked read, then a banked write of the result. */
  function ModifyStep(m: Machine, op: ModifyOp, mode: Mode): (m': Machine)
    requires m.Valid() && mode != Immediate
    ensures m'.Valid()
  {
    var (t, m1) := EffectiveAddress(AdvancePc(m, Length(mode)), mode, false);
    var (n, m2) := ReadModify(m1, op, t);
    WriteBack(m2, t, n)
  }

  /** The read and the operation of a read-modify-write: the new byte and the flags it sets. */
  function ReadModify(m: Machine, op: ModifyOp, t: word): (r: (byte, Machine))
    requires m.Valid()
    ensures r.1.Valid()
  {
    var (v, b) := BusRead(m.bus, t);
    var (n, f) := Modify(op, v, m.regs.flags);
    (n, Machine(m.regs.(flags := f), b))
  }

  /** A banked write of `n` at `t`, stamped with the current cycle count. */
  function WriteBack(m: Machine, t: word, n: byte): (m': Machine)
    requires m.Valid()
    ensures m'.Valid()
  {
    m.(bus := BusWrite(m.bus, t, n, m.regs.cycles))
  }

  /** ASL A, LSR A, ROL A, ROR A. */
  function ModifyAStep(r: Registers, op: ModifyOp): Registers {
    var (n, f) := Modify(op, r.a, r.flags);
    r.(pc := Wrap16(r.pc + 1), a := n, flags := f)
  }

  /** A store: a banked write of the register at the target, with no page penalty. */
  function StoreStep(m: Machine, reg: Register, mode: Mode): (m': Machine)
    requires m.Valid() && mode != Immediate
    ensures m'.Valid()
  {
    var (t, m1) := EffectiveAddress(AdvancePc(m, Length(mode)), mode, false);
    WriteBack(m1, t, RegisterValue(m1.regs, reg))
  }

  /** `Bxx`: PC moves by the signed offset; one cycle, and one more on a page cross. */
  function TakeBranch(r: Registers): Registers {
    var target := Wrap16(r.pc + Signed8(r.data));
    AddCycles(PagePenalty(r, true, r.pc, target).(pc := target), 1)
  }

  function BranchStep(r: Registers, flag: Condition, when: bool): Registers {
    var r1 := r.(pc := Wrap16(r.pc + 2));
    if FlagValue(r1.flags, flag) == when then TakeBranch(r1) else r1
  }

  /** The entry sequence shared by BRK, NMI and IRQ: PC then `status` pushed, I set, PC from `vector`. */
  function InterruptEntry(m: Machine, status: byte, vector: word): (m': Machine)
    requires m.Valid()
    ensures m'.Valid()
  {
    var m1 := Pushed(Pushed16(m, m.regs.pc), status);
    var (pc, b) := BusRead16(m1.bus, vector);
    Machine(m1.regs.(flags := m1.regs.flags.(interrupt := true), pc := pc), b)
  }

  /** `InterruptEntry` from the state after the pushes and the vector read. */
  lemma InterruptEntryOf(m: Machine, status: byte, vector: word, m1: Machine, pc: word, b: Bus)
    requires m.Valid() && m1 == Pushed(Pushed16(m, m.regs.pc), status) && (pc, b) == BusRead16(m1.bus, vector)
    ensures InterruptEntry(m, status, vector) == Machine(m1.regs.(flags := m1.regs.flags.(interrupt := true), pc := pc), b)
  {
  }

  /** BRK: PC + 2 and the status with bit 4 set go to the stack, PC comes from $FFFE. */
  function BrkStep(m: Machine): (m': Machine)
    requires m.Valid()
    ensures m'.Valid()
  {
    var m1 := AdvancePc(m, 2);
    InterruptEntry(m1, Status(m1.regs.flags), IrqVector)
  }

  /** PHA and PHP. */
  function PushStep(m: Machine, v: byte): (m': Machine)
    requires m.Valid()
    ensures m'.Valid()
  {
    Pushed(AdvancePc(m, 1), v)
  }

  /** PLA: A is pulled, Z and N follow it. */
  function PlaStep(m: Machine): (m': Machine)
    requires m.Valid()
    ensures m'.Valid()
  {
    var (v, m1) := Popped(AdvancePc(m, 1));
    m1.(regs := m1.regs.(a := v, flags := SetZN(m1.regs.flags, v)))
  }

  /** PLP: the flags are pulled (bits 4 and 5 are dropped). */
  function PlpStep(m: Machine): (m': Machine)
    requires m.Valid()
    ensures m'.Valid()
  {
    var (v, m1) := Popped(AdvancePc(m, 1));
    m1.(regs := m1.regs.(flags := UnpackStatus(v)))
  }

  /** JMP (ind): PC from the vector at the operand, read by `Read16`. */
  function JmpIndirectStep(m: Machine): (m': Machine)
    requires m.Valid()
    ensures m'.Valid()
  {
    var (pc, b) := BusRead16(m.bus, m.regs.address);
    Machine(m.regs.(pc := pc), b)
  }

  /** JSR: the address of its own last byte is pushed, PC becomes the operand. */
  function JsrStep(m: Machine): (m': Machine)
    requires m.Valid()
    ensures m'.Valid()
  {
    var m1 := Pushed16(m, Wrap16(m.regs.pc + 2));
    m1.(regs := m1.regs.(pc := m.regs.address))
  }

  /** RTS continues after the JSR whose last byte's address was pushed. */
  function ReturnAddress(pulled: word): word { Wrap16(pulled + 1) }

  function RtsStep(m: Machine): (m': Machine)
    requires m.Valid()
    ensures m'.Valid()
  {
    var (pulled, m1) := Popped16(m);
    m1.(regs := m1.regs.(pc := ReturnAddress(pulled)))
  }

  /** RTI: the status, then PC, are pulled. */
  function RtiStep(m: Machine): (m': Machine)
    requires m.Valid()
    ensures m'.Valid()
  {
    var (status, m1) := Popped(m);
    var (pc, m2) := Popped16(m1.(regs := m1.regs.(flags := UnpackStatus(status))));
    m2.(regs := m2.regs.(pc := pc))
  }

  /** The instructions with a memory operand. */
  predicate AccessesOperand(ins: Instruction) {
    ins.Load? || ins.ModifyMemory? || ins.Store?
  }

  /** The instructions that move the stack pointer. */
  predicate UsesStack(ins: Instruction) {
    ins.PHA? || ins.PHP? || ins.PLA? || ins.PLP? || ins.BRK? || ins.JSR? || ins.RTI? || ins.RTS?
  }

  /** The instruction's effect before the table's cycle count is added. */
  function Perform(m: Machine, ins: Instruction): (m': Machine)
    requires m.Valid()
    ensures m'.Valid()
  {
    if AccessesOperand(ins) then PerformMemory(m, ins)
    else if UsesStack(ins) then PerformStack(m, ins)
    else PerformRegisters(m, ins)
  }

  function PerformMemory(m: Machine, ins: Instruction): (m': Machine)
    requires m.Valid()
    ensures m'.Valid()
  {
    match ins
    case Load(op, mode) => LoadStep(m, op, mode)
    case ModifyMemory(op, mode) => if mode == Immediate then m else ModifyStep(m, op, mode)
    case Store(reg, mode) => if mode == Immediate then m else StoreStep(m, reg, mode)
    case _ => m
  }

  /** PHA, PHP, PLA and PLP. */
  predicate PushesOrPulls(ins: Instruction) {
    ins.PHA? || ins.PHP? || ins.PLA? || ins.PLP?
  }

  function PerformStack(m: Machine, ins: Instruction): (m': Machine)
    requires m.Valid()
    ensures m'.Valid()
  {
    if PushesOrPulls(ins) then PerformPushPull(m, ins) else PerformCallReturn(m, ins)
  }

  function PerformPushPull(m: Machine, ins: Instruction): (m': Machine)
    requires m.Valid()
    ensures m'.Valid()
  {
    if ins.PHA? || ins.PHP? then PushStep(m, PushValue(m.regs, ins))
    else if ins.PLA? then PlaStep(m)
    else if ins.PLP? then PlpStep(m)
    else m
  }

  /** The byte PHA or PHP pushes: A, or the packed status with the break bit set. */
  function PushValue(r: Registers, ins: Instruction): byte {
    if ins.PHA? then r.a else Status(r.flags)
  }

  function PerformCallReturn(m: Machine, ins: Instruction): (m': Machine)
    requires m.Valid()
    ensures m'.Valid()
  {
    match ins
    case BRK => BrkStep(m)
    case JSR => JsrStep(m)
    case RTI => RtiStep(m)
    case RTS => RtsStep(m)
    case _ => m
  }

  function PerformRegisters(m: Machine, ins: Instruction): (m': Machine)
    requires m.Valid()
    ensures m'.Valid()
  {
    match ins
    case ModifyA(op) => m.(regs := ModifyAStep(m.regs, op))
    case Branch(flag, when) => m.(regs := BranchStep(m.regs, flag, when))
    case Implied(op) => m.(regs := ApplyImplied(m.regs.(pc := Wrap16(m.regs.pc + 1)), op))
    case JMP => m.(regs := m.regs.(pc := m.regs.address))
    case JMPI => JmpIndirectStep(m)
    case KIL => m.(regs := m.regs.(jam := true))
    case _ => m
  }

  /** The `switch` of `Process`: the instruction, then `CountCycle` with the table's count. */
  function Execute(m: Machine, d: Decoded): (m': Machine)
    requires m.Valid()
    ensures m'.Valid()
  {
    var m1 := Perform(m, d.ins);
    m1.(regs := AddCycles(m1.regs, d.cycles))
  }

  // ---- Process ----

  /** Reset: SP drops by 3 without writes, I is set, PC comes from $FFFC, the cycle count restarts at 7. */
  function ResetStep(m: Machine): (m': Machine)
    requires m.Valid()
    ensures m'.Valid()
  {
    var (pc, b) := BusRead16(m.bus, ResetVector);
    Machine(m.regs.(sp := Wrap8(m.regs.sp - 3), flags := m.regs.flags.(interrupt := true), pc := pc,
                    cycles := 7, reset := false, jam := false, nmi := false, irq := false), b)
  }

  /** Interrupt entry: PC and the status with bit 4 masked off are pushed, I is set, PC comes from the vector. */
  function Interrupt(m: Machine, vector: word): (m': Machine)
    requires m.Valid()
    ensures m'.Valid()
  {
    InterruptEntry(m, And8(Status(m.regs.flags), 0xef), vector)
  }

  /** `_data` and `_address`: the two bytes after the opcode, read through the banked bus. */
  function FetchOperands(m: Machine): (m': Machine)
    requires m.Valid()
    ensures m'.Valid()
  {
    var (lo, b1) := BusRead(m.bus, Wrap16(m.regs.pc + 1));
    var (hi, b2) := BusRead(b1, Wrap16(m.regs.pc + 2));
    Machine(m.regs.(data := lo, address := Word(lo, hi)), b2)
  }

  /** The disk image a registered KERNAL trap handler works on. */
  datatype TrapContext = TrapContext(diskType: Disk.DiskType, data: seq<byte>)

  datatype Step = Step(m: Machine, files: Files, completion: Completion)

  /**
   * `Process`: reset, then jam, then NMI, then IRQ (only with I clear; it
   * counts no cycles), and otherwise one instruction. With a trap handler
   * registered and PC at $FF00 or above, the handler runs on the fetched
   * state (it sees PC, A, X and Y and sets A), and RTS is executed in place
   * of the fetched opcode; a handler that does not end normally stops
   * `Process` there.
   */
  function ProcessSpec(m: Machine, files: Files, traps: Option<TrapContext>, fuel: nat): (s: Step)
    requires m.Valid()
    ensures s.m.Valid()
  {
    if Preempted(m.regs) then Step(PreemptStep(m), files, Normal)
    else InstructionStep(m, files, traps, fuel)
  }

  /** A pending reset, a jam, a pending NMI or an unmasked pending IRQ: `Process` runs no instruction. */
  predicate Preempted(r: Registers) {
    r.reset || r.jam || r.nmi || (r.irq && !r.flags.interrupt)
  }

  /** The first four branches of `Process`, in their order of priority. */
  function PreemptStep(m: Machine): (m': Machine)
    requires m.Valid()
    ensures m'.Valid()
  {
    var r := m.regs;
    if r.reset then ResetStep(m)
    else if r.jam then m.(regs := r.(nmi := false, irq := false))
    else if r.nmi then NmiStep(m)
    else IrqStep(m)
  }

  /** The fetch, the trap when PC is at $FF00 or above, and the instruction. */
  function InstructionStep(m: Machine, files: Files, traps: Option<TrapContext>, fuel: nat): (s: Step)
    requires m.Valid()
    ensures s.m.Valid()
  {
    if Trapped(m.regs, traps) then TrapPath(Fetched(m), files, traps.value, fuel)
    else Step(ExecuteFetched(Fetched(m)), files, Normal)
  }

  /** The NMI: interrupt entry through $FFFA, 7 cycles, both interrupt lines cleared. */
  function NmiStep(m: Machine): (m': Machine)
    requires m.Valid()
    ensures m'.Valid()
  {
    var m1 := Interrupt(m, NmiVector);
    m1.(regs := AddCycles(m1.regs, 7).(nmi := false, irq := false))
  }

  /** The IRQ: interrupt entry through $FFFE; no cycles are counted. */
  function IrqStep(m: Machine): (m': Machine)
    requires m.Valid()
    ensures m'.Valid()
  {
    var m1 := Interrupt(m, IrqVector);
    m1.(regs := m1.regs.(irq := false))
  }

  /** The opcode fetch: `_opcode` is the byte at PC, read through the banked bus. */
  function Fetched(m: Machine): (m': Machine)
    requires m.Valid()
    ensures m'.Valid()
  {
    var (opcode, b) := BusRead(m.bus, m.regs.pc);
    Machine(m.regs.(opcode := opcode), b)
  }

  /** A trap handler is registered and PC is in the KERNAL's last page. */
  predicate Trapped(r: Registers, traps: Option<TrapContext>) {
    r.pc >= 0xff00 && traps.Some?
  }

  /** The operand fetch and the `switch` on the fetched opcode. */
  function ExecuteFetched(m: Machine): (m': Machine)
    requires m.Valid()
    ensures m'.Valid()
  {
    Execute(FetchOperands(m), Decode(m.regs.opcode))
  }

  /**
   * The trap path after the fetch: the handler sees PC, A, X and Y and sets
   * A; when it ends normally, RTS ($60) is executed in place of the opcode.
   */
  function TrapPath(m: Machine, files: Files, traps: TrapContext, fuel: nat): (s: Step)
    requires m.Valid()
    ensures s.m.Valid()
  {
    var r := m.regs;
    var t := TrapSpec(traps.diskType, traps.data, m.bus, files, r.pc, r.a, r.x, r.y, fuel);
    var m1 := Machine(r.(a := t.a), t.bus);
    if t.completion != Normal then Step(m1, t.files, t.completion)
    else Step(ExecuteFetched(m1.(regs := m1.regs.(opcode := 0x60))), t.files, Normal)
  }

  // ---- the processor object ----

  /** The bus objects a bus write may change. */
  class Mos6502 {
    const ram: Ram64K
    /** The registered `kernalTrap` handler, if any. */
    const traps: KernalTraps?
    /** `_a`, `_x`, `_y`, `_sp`, `_pc`, the flags, the interrupt lines, `_cycles` and the last opcode bytes. */
    var regs: Registers

    ghost predicate Valid() {
      ram.Valid() && (traps != null ==> traps.ram == ram)
    }

    /** The trap handler's own invariant: the memory it is wired to and its disk's sector table. */
    ghost predicate TrapsValid() {
      traps != null ==> traps.Valid()
    }

    function State(): (m: Machine)
      reads this, ram, ram.ram, ram.ioRam, ram.hooks, if ram.hooks == null then {} else {ram.hooks.sid}
      reads if ram.hooks == null then [] else ram.hooks.sid.channels
      requires ram.Valid()
      ensures m.Valid()
    {
      Machine(regs, ram.State())
    }

    /** The file state of the trap handler. */
    function FilesOf(): Files
      reads if traps == null then {} else {traps, traps.fileHandle}
    {
      if traps == null then Files(None, None) else traps.State()
    }

    function Context(): Option<TrapContext> {
      if traps == null then None else Some(TrapContext(traps.disk.diskType, traps.disk.data))
    }

    /** All registers zero, a reset pending. */
    constructor (ram: Ram64K, traps: KernalTraps?)
      ensures this.ram == ram && this.traps == traps
      ensures regs == Registers(0, 0, 0, 0, 0, Flags(false, false, false, false, false, false),
                                false, false, true, false, 0, 0, 0, 0)
    {
      this.ram := ram;
      this.traps := traps;
      regs := Registers(0, 0, 0, 0, 0, Flags(false, false, false, false, false, false),
                        false, false, false, false, 0, 0, 0, 0);
      new;
      Reset();
    }

    /** An assignment to the register fields; memory and the hooks are untouched. */
    method SetRegisters(r: Registers)
      requires ram.Valid()
      modifies this
      ensures regs == r && ram.State() == old(ram.State()) && State() == old(State()).(regs := r)
      ensures old(ram.HooksValid()) ==> ram.HooksValid()
      ensures FilesOf() == old(FilesOf())
    {
      regs := r;
    }

    method SetNMI()
      modifies this
      ensures regs == old(regs).(nmi := true)
    {
      regs := regs.(nmi := true);
    }

    /** The emulator's `SetIRQ(flag)`: the pending IRQ follows the emulator's interrupt flags. */
    method SetIRQ(b: bool)
      modifies this
      ensures regs == old(regs).(irq := b)
    {
      regs := regs.(irq := b);
    }

    method Reset()
      modifies this
      ensures regs == old(regs).(reset := true)
    {
      regs := regs.(reset := true);
    }

    /** `Jump`: PC from the vector at `vector`. */
    method Jump(vector: word)
      requires Valid()
      modifies this, ram.hooks
      ensures old(ram.HooksValid()) ==> ram.HooksValid()
      ensures var (pc, b) := BusRead16(old(State()).bus, vector); State() == Machine(old(regs).(pc := pc), b)
    {
      var pc := ram.Read16(vector);
      SetRegisters(regs.(pc := pc));
    }

    // -- the stack --

    method Push(v: byte)
      requires Valid() && ram.HooksValid()
      modifies this, ram.ram, ram.ioRam, ram.hooks, if ram.hooks == null then [] else ram.hooks.sid.channels
      ensures ram.HooksValid()
      ensures State() == Pushed(old(State()), v)
    {
      ram.Write(StackPage + regs.sp, v, regs.cycles);
      SetRegisters(regs.(sp := Wrap8(regs.sp - 1)));
    }

    method Push16(v: word)
      requires Valid() && ram.HooksValid()
      modifies this, ram.ram, ram.ioRam, ram.hooks, if ram.hooks == null then [] else ram.hooks.sid.channels
      ensures ram.HooksValid()
      ensures State() == Pushed16(old(State()), v)
    {
      Push(Hi(v));
      Push(Lo(v));
    }

    method Pop() returns (v: byte)
      requires Valid()
      modifies this, ram.hooks
      ensures old(ram.HooksValid()) ==> ram.HooksValid()
      ensures (v, State()) == Popped(old(State()))
    {
      SetRegisters(regs.(sp := Wrap8(regs.sp + 1)));
      v := ram.Read(StackPage + regs.sp);
    }

    method Pop16() returns (v: word)
      requires Valid()
      modifies this, ram.hooks
      ensures old(ram.HooksValid()) ==> ram.HooksValid()
      ensures (v, State()) == Popped16(old(State()))
    {
      var lo := Pop();
      var hi := Pop();
      v := Word(lo, hi);
    }

    // -- addressing --

    /** `CheckPageBoundaries`. */
    method CheckPageBoundaries(base: word, target: word)
      modifies this
      ensures regs == PagePenalty(old(regs), true, base, target)
    {
      if Hi(base) != Hi(target) {
        regs := AddCycles(regs, 1);
      }
    }

    /** An indexed address with its page penalty. */
    method Index(base: word, index: byte, check: bool) returns (t: word)
      requires ram.Valid()
      modifies this
      ensures (t, State()) == Indexed(old(State()), base, index, check)
    {
      t := Wrap16(base + index);
      if check {
        CheckPageBoundaries(base, t);
      }
    }

    /** `AbsoluteX` and `AbsoluteY`. */
    method AbsoluteIndexed(index: byte, check: bool) returns (t: word)
      requires ram.Valid()
      modifies this
      ensures (t, State()) == IndexedAbsolute(old(State()), index, check)
    {
      t := Index(regs.address, index, check);
    }

    /** The pointer read of both indirect modes. */
    method ReadPointer(zp: byte) returns (p: word)
      requires ram.Valid()
      modifies ram.hooks
      ensures old(ram.HooksValid()) ==> ram.HooksValid()
      ensures (p, State()) == PointerAt(old(State()), zp)
    {
      p := ram.Read16(zp);
    }

    /** `IndirectX`. */
    method IndirectX() returns (t: word)
      requires ram.Valid()
      modifies ram.hooks
      ensures old(ram.HooksValid()) ==> ram.HooksValid()
      ensures (t, State()) == IndexedIndirect(old(State()))
    {
      t := ReadPointer((regs.data + regs.x) % 0x100);
    }

    /** `IndirectY`. */
    method IndirectY(check: bool) returns (t: word)
      requires ram.Valid()
      modifies this, ram.hooks
      ensures old(ram.HooksValid()) ==> ram.HooksValid()
      ensures (t, State()) == IndirectIndexed(old(State()), check)
    {
      var y := regs.y;
      var p := ReadPointer(regs.data);
      t := Index(p, y, check);
    }

    /** The address computation of each memory mode. */
    method Resolve(mode: Mode, check: bool) returns (t: word)
      requires ram.Valid() && mode != Immediate
      modifies this, ram.hooks
      ensures old(ram.HooksValid()) ==> ram.HooksValid()
      ensures (t, State()) == EffectiveAddress(old(State()), mode, check)
    {
      match mode
      case ZeroPage => t := regs.data;
      case ZeroPageX => t := (regs.data + regs.x) % 0x100;
      case ZeroPageY => t := (regs.data + regs.y) % 0x100;
      case Absolute => t := regs.address;
      case AbsoluteX => t := AbsoluteIndexed(regs.x, check);
      case AbsoluteY => t := AbsoluteIndexed(regs.y, check);
      case IndirectX => t := IndirectX();
      case IndirectY => t := IndirectY(check);
    }

    method FetchOperand(mode: Mode) returns (v: byte)
      requires Valid()
      modifies this, ram.hooks
      ensures old(ram.HooksValid()) ==> ram.HooksValid()
      ensures (v, State()) == OperandOf(old(State()), mode)
    {
      if mode == Immediate {
        v := regs.data;
      } else {
        var t := Resolve(mode, true);
        v := ram.Read(t);
      }
    }

    // -- instruction groups --

    method RunLoad(op: LoadOp, mode: Mode)
      requires Valid()
      modifies this, ram.hooks
      ensures old(ram.HooksValid()) ==> ram.HooksValid()
      ensures State() == LoadStep(old(State()), op, mode)
    {
      ghost var m0 := State();
      SetRegisters(regs.(pc := Wrap16(regs.pc + Length(mode))));
      ghost var m1 := State();
      assert m1 == AdvancePc(m0, Length(mode));
      var v := FetchOperand(mode);
      ghost var m2 := State();
      assert (v, m2) == OperandOf(m1, mode);
      SetRegisters(ApplyLoad(regs, op, v));
      assert State() == m2.(regs := ApplyLoad(m2.regs, op, v));
    }

    /** A read-modify-write on memory: the flags change before the write. */
    /** PC past an instruction of `n` bytes. */
    method Advance(n: nat)
      requires ram.Valid()
      modifies this
      ensures State() == AdvancePc(old(State()), n)
    {
      SetRegisters(regs.(pc := Wrap16(regs.pc + n)));
    }

    method ReadAndModify(op: ModifyOp, t: word) returns (n: byte)
      requires ram.Valid()
      modifies this, ram.hooks
      ensures old(ram.HooksValid()) ==> ram.HooksValid()
      ensures (n, State()) == ReadModify(old(State()), op, t)
    {
      var v := ram.Read(t);
      var r := Modify(op, v, regs.flags);
      n := r.0;
      SetRegisters(regs.(flags := r.1));
    }

    method Store(t: word, n: byte)
      requires Valid() && ram.HooksValid()
      modifies ram.ram, ram.ioRam, ram.hooks, if ram.hooks == null then [] else ram.hooks.sid.channels
      ensures ram.HooksValid()
      ensures State() == WriteBack(old(State()), t, n)
    {
      ram.Write(t, n, regs.cycles);
    }

    method RunModify(op: ModifyOp, mode: Mode)
      requires Valid() && ram.HooksValid() && mode != Immediate
      modifies this, ram.ram, ram.ioRam, ram.hooks, if ram.hooks == null then [] else ram.hooks.sid.channels
      ensures ram.HooksValid()
      ensures State() == ModifyStep(old(State()), op, mode)
    {
      Advance(Length(mode));
      var t := Resolve(mode, false);
      var n := ReadAndModify(op, t);
      Store(t, n);
    }

    method RunStore(reg: Register, mode: Mode)
      requires Valid() && ram.HooksValid() && mode != Immediate
      modifies this, ram.ram, ram.ioRam, ram.hooks, if ram.hooks == null then [] else ram.hooks.sid.channels
      ensures ram.HooksValid()
      ensures State() == StoreStep(old(State()), reg, mode)
    {
      Advance(Length(mode));
      var t := Resolve(mode, false);
      Store(t, RegisterValue(regs, reg));
    }

    /** `Bxx`. */
    method Bxx()
      modifies this
      ensures regs == TakeBranch(old(regs))
    {
      var target := Wrap16(regs.pc + Signed8(regs.data));
      CheckPageBoundaries(regs.pc, target);
      regs := regs.(pc := target);
      regs := AddCycles(regs, 1);
    }

    method RunBranch(flag: Condition, when: bool)
      modifies this
      ensures regs == BranchStep(old(regs), flag, when)
    {
      regs := regs.(pc := Wrap16(regs.pc + 2));
      if FlagValue(regs.flags, flag) == when {
        Bxx();
      }
    }

    method EnterInterrupt(status: byte, vector: word)
      requires Valid() && ram.HooksValid()
      modifies this, ram.ram, ram.ioRam, ram.hooks, if ram.hooks == null then [] else ram.hooks.sid.channels
      ensures ram.HooksValid()
      ensures State() == InterruptEntry(old(State()), status, vector)
    {
      ghost var m0 := State();
      Push16(regs.pc);
      Push(status);
      ghost var m1 := State();
      SetRegisters(regs.(flags := regs.flags.(interrupt := true)));
      var pc := ram.Read16(vector);
      SetRegisters(regs.(pc := pc));
      InterruptEntryOf(m0, status, vector, m1, pc, ram.State());
    }

    method RunBrk()
      requires Valid() && ram.HooksValid()
      modifies this, ram.ram, ram.ioRam, ram.hooks, if ram.hooks == null then [] else ram.hooks.sid.channels
      ensures ram.HooksValid()
      ensures State() == BrkStep(old(State()))
    {
      ghost var m0 := State();
      SetRegisters(regs.(pc := Wrap16(regs.pc + 2)));
      assert State() == AdvancePc(m0, 2);
      EnterInterrupt(Status(regs.flags), IrqVector);
    }

    method RunJsr()
      requires Valid() && ram.HooksValid()
      modifies this, ram.ram, ram.ioRam, ram.hooks, if ram.hooks == null then [] else ram.hooks.sid.channels
      ensures ram.HooksValid()
      ensures State() == JsrStep(old(State()))
    {
      Push16(Wrap16(regs.pc + 2));
      SetRegisters(regs.(pc := regs.address));
    }

    method RunRts()
      requires Valid()
      modifies this, ram.hooks
      ensures old(ram.HooksValid()) ==> ram.HooksValid()
      ensures State() == RtsStep(old(State()))
    {
      var pc := Pop16();
      SetRegisters(regs.(pc := ReturnAddress(pc)));
    }

    method RunRti()
      requires Valid()
      modifies this, ram.hooks
      ensures old(ram.HooksValid()) ==> ram.HooksValid()
      ensures State() == RtiStep(old(State()))
    {
      var status := Pop();
      SetRegisters(regs.(flags := UnpackStatus(status)));
      var pc := Pop16();
      SetRegisters(regs.(pc := pc));
    }

    method RunPush(v: byte)
      requires Valid() && ram.HooksValid()
      modifies this, ram.ram, ram.ioRam, ram.hooks, if ram.hooks == null then [] else ram.hooks.sid.channels
      ensures ram.HooksValid()
      ensures State() == PushStep(old(State()), v)
    {
      ghost var m0 := State();
      SetRegisters(regs.(pc := Wrap16(regs.pc + 1)));
      assert State() == AdvancePc(m0, 1);
      Push(v);
    }

    method RunPla()
      requires Valid()
      modifies this, ram.hooks
      ensures old(ram.HooksValid()) ==> ram.HooksValid()
      ensures State() == PlaStep(old(State()))
    {
      ghost var m0 := State();
      SetRegisters(regs.(pc := Wrap16(regs.pc + 1)));
      ghost var m1 := State();
      assert m1 == AdvancePc(m0, 1);
      var v := Pop();
      ghost var m2 := State();
      assert (v, m2) == Popped(m1);
      SetRegisters(regs.(a := v, flags := SetZN(regs.flags, v)));
      assert State() == m2.(regs := m2.regs.(a := v, flags := SetZN(m2.regs.flags, v)));
    }

    method RunPlp()
      requires Valid()
      modifies this, ram.hooks
      ensures old(ram.HooksValid()) ==> ram.HooksValid()
      ensures State() == PlpStep(old(State()))
    {
      ghost var m0 := State();
      SetRegisters(regs.(pc := Wrap16(regs.pc + 1)));
      ghost var m1 := State();
      assert m1 == AdvancePc(m0, 1);
      var v := Pop();
      ghost var m2 := State();
      assert (v, m2) == Popped(m1);
      SetRegisters(regs.(flags := UnpackStatus(v)));
      assert State() == m2.(regs := m2.regs.(flags := UnpackStatus(v)));
    }

    method RunJmpIndirect()
      requires Valid()
      modifies this, ram.hooks
      ensures old(ram.HooksValid()) ==> ram.HooksValid()
      ensures State() == JmpIndirectStep(old(State()))
    {
      var pc := ram.Read16(regs.address);
      SetRegisters(regs.(pc := pc));
    }

    method RunMemory(ins: Instruction)
      requires Valid() && ram.HooksValid() && AccessesOperand(ins)
      modifies this, ram.ram, ram.ioRam, ram.hooks, if ram.hooks == null then [] else ram.hooks.sid.channels
      ensures ram.HooksValid()
      ensures State() == PerformMemory(old(State()), ins)
    {
      match ins {
        case Load(op, mode) => RunLoad(op, mode);
        case ModifyMemory(op, mode) => if mode != Immediate { RunModify(op, mode); }
        case Store(reg, mode) => if mode != Immediate { RunStore(reg, mode); }
      }
    }

    method RunStack(ins: Instruction)
      requires Valid() && ram.HooksValid() && UsesStack(ins)
      modifies this, ram.ram, ram.ioRam, ram.hooks, if ram.hooks == null then [] else ram.hooks.sid.channels
      ensures ram.HooksValid()
      ensures State() == PerformStack(old(State()), ins)
    {
      if PushesOrPulls(ins) {
        RunPushPull(ins);
      } else {
        RunCallReturn(ins);
      }
    }

    method RunPushPull(ins: Instruction)
      requires Valid() && ram.HooksValid() && PushesOrPulls(ins)
      modifies this, ram.ram, ram.ioRam, ram.hooks, if ram.hooks == null then [] else ram.hooks.sid.channels
      ensures ram.HooksValid()
      ensures State() == PerformPushPull(old(State()), ins)
    {
      if ins.PHA? || ins.PHP? {
        RunPush(PushValue(regs, ins));
      } else if ins.PLA? {
        RunPla();
      } else {
        RunPlp();
      }
    }

    method RunCallReturn(ins: Instruction)
      requires Valid() && ram.HooksValid() && (ins.BRK? || ins.JSR? || ins.RTI? || ins.RTS?)
      modifies this, ram.ram, ram.ioRam, ram.hooks, if ram.hooks == null then [] else ram.hooks.sid.channels
      ensures ram.HooksValid()
      ensures State() == PerformCallReturn(old(State()), ins)
    {
      if ins.BRK? || ins.JSR? {
        RunCall(ins);
      } else {
        RunReturn(ins);
      }
    }

    /** BRK and JSR. */
    method RunCall(ins: Instruction)
      requires Valid() && ram.HooksValid() && (ins.BRK? || ins.JSR?)
      modifies this, ram.ram, ram.ioRam, ram.hooks, if ram.hooks == null then [] else ram.hooks.sid.channels
      ensures ram.HooksValid()
      ensures State() == PerformCallReturn(old(State()), ins)
    {
      if ins.BRK? {
        RunBrk();
      } else {
        RunJsr();
      }
    }

    /** RTI and RTS. */
    method RunReturn(ins: Instruction)
      requires Valid() && (ins.RTI? || ins.RTS?)
      modifies this, ram.hooks
      ensures old(ram.HooksValid()) ==> ram.HooksValid()
      ensures State() == PerformCallReturn(old(State()), ins)
    {
      if ins.RTI? {
        RunRti();
      } else {
        RunRts();
      }
    }

    method RunRegisters(ins: Instruction)
      requires Valid() && !AccessesOperand(ins) && !UsesStack(ins)
      modifies this, ram.hooks
      ensures old(ram.HooksValid()) ==> ram.HooksValid()
      ensures State() == PerformRegisters(old(State()), ins)
    {
      match ins {
        case ModifyA(op) => SetRegisters(ModifyAStep(regs, op));
        case Branch(flag, when) => RunBranch(flag, when);
        case Implied(op) => SetRegisters(ApplyImplied(regs.(pc := Wrap16(regs.pc + 1)), op));
        case JMP => SetRegisters(regs.(pc := regs.address));
        case JMPI => RunJmpIndirect();
        case KIL => SetRegisters(regs.(jam := true));
      }
    }

    /** One decoded instruction, then `CountCycle` with the table's count. */
    method RunInstruction(d: Decoded)
      requires Valid() && ram.HooksValid()
      modifies this, ram.ram, ram.ioRam, ram.hooks, if ram.hooks == null then [] else ram.hooks.sid.channels
      ensures ram.HooksValid()
      ensures State() == Execute(old(State()), d)
    {
      if AccessesOperand(d.ins) {
        RunMemory(d.ins);
      } else if UsesStack(d.ins) {
        RunStack(d.ins);
      } else {
        RunRegisters(d.ins);
      }
      SetRegisters(AddCycles(regs, d.cycles));
    }

    /** The reset branch of `Process`. */
    method ServiceReset()
      requires Valid()
      modifies this, ram.hooks
      ensures old(ram.HooksValid()) ==> ram.HooksValid()
      ensures State() == ResetStep(old(State()))
    {
      SetRegisters(regs.(sp := Wrap8(regs.sp - 3), flags := regs.flags.(interrupt := true)));
      var pc := ram.Read16(ResetVector);
      SetRegisters(regs.(pc := pc, cycles := 7, reset := false, jam := false, nmi := false, irq := false));
    }

    /** The NMI branch of `Process`. */
    method ServiceNmi()
      requires Valid() && ram.HooksValid()
      modifies this, ram.ram, ram.ioRam, ram.hooks, if ram.hooks == null then [] else ram.hooks.sid.channels
      ensures ram.HooksValid()
      ensures State() == NmiStep(old(State()))
    {
      EnterInterrupt(And8(Status(regs.flags), 0xef), NmiVector);
      SetRegisters(AddCycles(regs, 7).(nmi := false, irq := false));
    }

    /** The IRQ branch of `Process`. */
    method ServiceIrq()
      requires Valid() && ram.HooksValid()
      modifies this, ram.ram, ram.ioRam, ram.hooks, if ram.hooks == null then [] else ram.hooks.sid.channels
      ensures ram.HooksValid()
      ensures State() == IrqStep(old(State()))
    {
      EnterInterrupt(And8(Status(regs.flags), 0xef), IrqVector);
      SetRegisters(regs.(irq := false));
    }

    /** `_opcode = _ram.Read(_pc)`. */
    method FetchOpcode()
      requires Valid()
      modifies this, ram.hooks
      ensures old(ram.HooksValid()) ==> ram.HooksValid()
      ensures State() == Fetched(old(State()))
    {
      var opcode := ram.Read(regs.pc);
      SetRegisters(regs.(opcode := opcode));
    }

    /** `_data` and `_address` from the two bytes after the opcode. */
    method FetchAddress()
      requires Valid()
      modifies this, ram.hooks
      ensures old(ram.HooksValid()) ==> ram.HooksValid()
      ensures State() == FetchOperands(old(State()))
    {
      var lo := ram.Read(Wrap16(regs.pc as int + 1));
      var hi := ram.Read(Wrap16(regs.pc as int + 2));
      SetRegisters(regs.(data := lo, address := Word(lo, hi)));
    }

    /** The operand fetch and the instruction of the fetched opcode. */
    method ExecuteOpcode()
      requires Valid() && ram.HooksValid()
      modifies this, ram.ram, ram.ioRam, ram.hooks, if ram.hooks == null then [] else ram.hooks.sid.channels
      ensures ram.HooksValid() && FilesOf() == old(FilesOf())
      ensures State() == ExecuteFetched(old(State()))
    {
      ghost var m0 := State();
      FetchAddress();
      assert State() == FetchOperands(m0);
      RunInstruction(Decode(regs.opcode));
    }

    /** The handler's half of the trap: it sees PC, A, X and Y, and its A replaces the processor's. */
    method CallHandler(fuel: nat) returns (completion: Completion)
      requires Valid() && ram.HooksValid() && traps != null && TrapsValid()
      modifies this, ram.ram, ram.hooks, traps, traps.fileHandle
      ensures Valid() && ram.HooksValid()
      ensures var r := old(regs);
        var t := TrapSpec(traps.disk.diskType, traps.disk.data, old(ram.State()), old(FilesOf()), r.pc, r.a, r.x, r.y, fuel);
        State() == Machine(r.(a := t.a), t.bus) && FilesOf() == t.files && completion == t.completion
      ensures traps.fileHandle == null || traps.fileHandle == old(traps.fileHandle) || fresh(traps.fileHandle)
    {
      var a;
      a, completion := traps.HandleKernalTrap(regs.pc, regs.a, regs.x, regs.y, fuel);
      SetRegisters(regs.(a := a));
    }

    /** The KERNAL trap: the handler runs, then RTS unless the handler did not end normally. */
    method RunTrap(fuel: nat) returns (completion: Completion)
      requires Valid() && ram.HooksValid() && traps != null && TrapsValid()
      modifies this, ram.ram, ram.ioRam, ram.hooks, if ram.hooks == null then [] else ram.hooks.sid.channels
      modifies traps, traps.fileHandle
      ensures Valid() && ram.HooksValid()
      ensures Step(State(), FilesOf(), completion) == TrapPath(old(State()), old(FilesOf()), Context().value, fuel)
      ensures traps.fileHandle == null || traps.fileHandle == old(traps.fileHandle) || fresh(traps.fileHandle)
    {
      ghost var m0, f0 := State(), FilesOf();
      completion := CallHandler(fuel);
      ghost var t := TrapSpec(traps.disk.diskType, traps.disk.data, m0.bus, f0, m0.regs.pc, m0.regs.a, m0.regs.x, m0.regs.y, fuel);
      ghost var m1 := Machine(m0.regs.(a := t.a), t.bus);
      assert State() == m1;
      if completion == Normal {
        ReturnFromTrap();
      }
    }

    /** After a handler that ended normally, RTS ($60) runs in place of the fetched opcode. */
    method ReturnFromTrap()
      requires Valid() && ram.HooksValid()
      modifies this, ram.ram, ram.ioRam, ram.hooks, if ram.hooks == null then [] else ram.hooks.sid.channels
      ensures ram.HooksValid() && FilesOf() == old(FilesOf())
      ensures traps != null ==> traps.fileHandle == old(traps.fileHandle)
      ensures State() == ExecuteFetched(old(State()).(regs := old(regs).(opcode := 0x60)))
    {
      SetRegisters(regs.(opcode := 0x60));
      ExecuteOpcode();
    }

    /** The reset, jam, NMI and IRQ branches of `Process`. */
    method Preempt()
      requires Valid() && ram.HooksValid() && Preempted(regs)
      modifies this, ram.ram, ram.ioRam, ram.hooks, if ram.hooks == null then [] else ram.hooks.sid.channels
      ensures Valid() && ram.HooksValid()
      ensures State() == PreemptStep(old(State()))
    {
      if regs.reset {
        ServiceReset();
      } else if regs.jam {
        SetRegisters(regs.(nmi := false, irq := false));
      } else if regs.nmi {
        ServiceNmi();
      } else {
        ServiceIrq();
      }
    }

    /** The instruction branch of `Process`. */
    method RunNext(fuel: nat) returns (completion: Completion)
      requires Valid() && ram.HooksValid() && TrapsValid()
      modifies this, ram.ram, ram.ioRam, ram.hooks, if ram.hooks == null then [] else ram.hooks.sid.channels
      modifies if traps == null then {} else {traps, traps.fileHandle}
      ensures Valid() && ram.HooksValid()
      ensures Step(State(), FilesOf(), completion) == InstructionStep(old(State()), old(FilesOf()), Context(), fuel)
      ensures traps != null ==>
        traps.fileHandle == null || traps.fileHandle == old(traps.fileHandle) || fresh(traps.fileHandle)
    {
      ghost var m0, f0 := State(), FilesOf();
      completion := Normal;
      FetchOpcode();
      ghost var m1 := State();
      assert m1 == Fetched(m0) && FilesOf() == f0;
      if regs.pc >= 0xff00 && traps != null {
        completion := RunTrap(fuel);
        assert Step(State(), FilesOf(), completion) == TrapPath(m1, f0, Context().value, fuel);
      } else {
        assert !Trapped(m0.regs, Context());
        ExecuteOpcode();
        assert FilesOf() == f0;
        assert State() == ExecuteFetched(m1);
      }
    }

    /** `Preempt`, which leaves the trap handler's files as they were. */
    method ServicePending()
      requires Valid() && ram.HooksValid() && Preempted(regs)
      modifies this, ram.ram, ram.ioRam, ram.hooks, if ram.hooks == null then [] else ram.hooks.sid.channels
      ensures Valid() && ram.HooksValid()
      ensures State() == PreemptStep(old(State())) && FilesOf() == old(FilesOf())
    {
      ghost var files := FilesOf();
      Preempt();
      assert traps == null || (traps.fileName, traps.fileHandle) == old((traps.fileName, traps.fileHandle));
      assert FilesOf() == files;
    }

    /**
     * `Process`: the pending reset, the jam, the NMI, the unmasked IRQ, or
     * one instruction (through the trap handler when PC is at $FF00 or above).
     * `fuel` bounds the directory walk of a CHKIN trap.
     */
    method Process(fuel: nat) returns (completion: Completion)
      requires Valid() && ram.HooksValid() && TrapsValid()
      modifies this, ram.ram, ram.ioRam, ram.hooks, if ram.hooks == null then [] else ram.hooks.sid.channels
      modifies if traps == null then {} else {traps, traps.fileHandle}
      ensures Valid() && ram.HooksValid()
      ensures Preempted(old(regs)) ==>
        completion == Normal && FilesOf() == old(FilesOf()) && State() == PreemptStep(old(State()))
      ensures !Preempted(old(regs)) ==>
        Step(State(), FilesOf(), completion) == InstructionStep(old(State()), old(FilesOf()), Context(), fuel)
      ensures traps != null ==>
        traps.fileHandle == null || traps.fileHandle == old(traps.fileHandle) || fresh(traps.fileHandle)
    {
      if Preempted(regs) {
        ServicePending();
        completion := Normal;
      } else {
        completion := RunNext(fuel);
      }
    }
  }

  /** `ProcessSpec` on a machine with a reset, a jam or a serviceable interrupt pending. */
  lemma PreemptedSpec(m: Machine, files: Files, traps: Option<TrapContext>, fuel: nat)
    requires m.Valid() && Preempted(m.regs)
    ensures ProcessSpec(m, files, traps, fuel) == Step(PreemptStep(m), files, Normal)
  {
  }

  /** `ProcessSpec` on a machine with nothing pending: one instruction. */
  lemma InstructionSpec(m: Machine, files: Files, traps: Option<TrapContext>, fuel: nat)
    requires m.Valid() && !Preempted(m.regs)
    ensures ProcessSpec(m, files, traps, fuel) == InstructionStep(m, files, traps, fuel)
  {
  }

  /** A processor none of whose objects changed is in the same state and sees the same files. */
  twostate lemma ProcessorUntouched(p: Mos6502)
    requires p.ram.Valid() && p.ram.hooks != null
    requires unchanged(p, p.ram, p.ram.ram, p.ram.ioRam, p.ram.hooks, p.ram.hooks.sid, p.ram.hooks.sid.channels)
    requires p.traps != null ==> unchanged(p.traps) && (p.traps.fileHandle != null ==> unchanged(p.traps.fileHandle))
    ensures p.State() == old(p.State()) && p.FilesOf() == old(p.FilesOf())
  {
  }
}
