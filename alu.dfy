// The value-level half of the processor (`MOS6502`): the flag register and
// its packing into the status byte, and the arithmetic and logic the
// instructions apply to a byte - binary and decimal add and subtract,
// compares, shifts and rotates, increments and decrements.
module Alu {
  import opened Bits

  datatype Flags = Flags(carry: bool, zero: bool, interrupt: bool, decimal: bool,
                         overflow: bool, negative: bool)

  function B(c: bool): nat { if c then 1 else 0 }

  // ---- the status byte ----

  /**
   * The status byte: C=$01, Z=$02, I=$04, D=$08, V=$40, N=$80, bit 5 always
   * set. There is no break flag; bit 4 reads as set (`brk`), and the
   * interrupt entry clears it with `& $EF` before pushing.
   */
  function PackStatus(f: Flags, brk: bool): byte {
    B(f.carry) + 2 * B(f.zero) + 4 * B(f.interrupt) + 8 * B(f.decimal) + 16 * B(brk) + 32
      + 64 * B(f.overflow) + 128 * B(f.negative)
  }

  /** Which flag lives in bit `j` of the status byte. */
  predicate FlagBit(f: Flags, brk: bool, j: nat) {
    j < 8 && [f.carry, f.zero, f.interrupt, f.decimal, brk, true, f.overflow, f.negative][j]
  }

  /** The `_status` getter. */
  function Status(f: Flags): byte { PackStatus(f, true) }

  /** The `_status` setter: bits 4 and 5 are ignored. */
  function UnpackStatus(v: byte): Flags {
    Flags(Bit(v, 0x01), Bit(v, 0x02), Bit(v, 0x04), Bit(v, 0x08), Bit(v, 0x40), Bit(v, 0x80))
  }

  /** Bit `j` of the packed status is the flag of that bit. */
  lemma StatusBitAt(f: Flags, brk: bool, j: nat)
    ensures BitAt(PackStatus(f, brk), j) <==> j < 8 && FlagBit(f, brk, j)
  {
    if j < 8 {
      BitAtMask(PackStatus(f, brk), j);
      PackedBit(B(f.carry), B(f.zero), B(f.interrupt), B(f.decimal), B(brk), B(f.overflow), B(f.negative), j);
      FlagBitOf(f, brk, j);
    } else {
      Pow2Widths();
      BitAtBeyond(PackStatus(f, brk), 8, j);
    }
  }

  /** Bit `j` of the status sum of the single bits `c` .. `n` (bit 5 always set). */
  lemma PackedBit(c: nat, z: nat, i: nat, d: nat, k: nat, v: nat, n: nat, j: nat)
    requires c < 2 && z < 2 && i < 2 && d < 2 && k < 2 && v < 2 && n < 2 && j < 8
    ensures Bit(c + 2 * z + 4 * i + 8 * d + 16 * k + 32 + 64 * v + 128 * n, BitValues[j]) <==>
      [c, z, i, d, k, 1, v, n][j] == 1
  {
    var p := c + 2 * z + 4 * i + 8 * d + 16 * k + 32 + 64 * v + 128 * n;
    if j == 0 {
      MaskBitOf(p, 1, c, z + 2 * i + 4 * d + 8 * k + 16 + 32 * v + 64 * n, 0);
    } else if j == 1 {
      MaskBitOf(p, 2, z, i + 2 * d + 4 * k + 8 + 16 * v + 32 * n, c);
    } else if j == 2 {
      MaskBitOf(p, 4, i, d + 2 * k + 4 + 8 * v + 16 * n, c + 2 * z);
    } else if j == 3 {
      MaskBitOf(p, 8, d, k + 2 + 4 * v + 8 * n, c + 2 * z + 4 * i);
    } else if j == 4 {
      MaskBitOf(p, 0x10, k, 1 + 2 * v + 4 * n, c + 2 * z + 4 * i + 8 * d);
    } else if j == 5 {
      MaskBitOf(p, 0x20, 1, v + 2 * n, c + 2 * z + 4 * i + 8 * d + 16 * k);
    } else if j == 6 {
      MaskBitOf(p, 0x40, v, n, c + 2 * z + 4 * i + 8 * d + 16 * k + 32);
    } else if j == 7 {
      MaskBitOf(p, 0x80, n, 0, c + 2 * z + 4 * i + 8 * d + 16 * k + 32 + 64 * v);
    }
  }

  /** The flag of bit `j`, as a single bit. */
  lemma FlagBitOf(f: Flags, brk: bool, j: nat)
    requires j < 8
    ensures [B(f.carry), B(f.zero), B(f.interrupt), B(f.decimal), B(brk), 1, B(f.overflow), B(f.negative)][j] == 1
      <==> FlagBit(f, brk, j)
  {
    if j == 0 {} else if j == 1 {} else if j == 2 {} else if j == 3 {}
    else if j == 4 {} else if j == 5 {} else if j == 6 {} else {}
  }

  /** The bits of the masks `$30` and `$EF`. */
  lemma MaskBits(j: nat)
    ensures BitAt(0x30, j) <==> j == 4 || j == 5
    ensures BitAt(0xef, j) <==> j < 8 && j != 4
  {
    if j < 8 {
      BitAtMask(0x30, j);
      BitAtMask(0xef, j);
      if j == 0 {} else if j == 1 {} else if j == 2 {} else if j == 3 {}
      else if j == 4 {} else if j == 5 {} else if j == 6 {} else {}
    } else {
      Pow2Widths();
      BitAtBeyond(0x30, 8, j);
      BitAtBeyond(0xef, 8, j);
    }
  }

  /** Setting the status byte to `v` and reading it back gives `v | $30`. */
  lemma StatusRoundTrip(v: byte)
    ensures Status(UnpackStatus(v)) == Or8(v, 0x30)
  {
    var f := UnpackStatus(v);
    forall j: nat
      ensures BitAt(Status(f), j) == BitAt(Or(v, 0x30), j)
    {
      StatusRoundTripBit(v, j);
    }
    BitsDetermine(Status(f), Or(v, 0x30));
  }

  /** One bit of `StatusRoundTrip`. */
  lemma StatusRoundTripBit(v: byte, j: nat)
    ensures BitAt(Status(UnpackStatus(v)), j) == BitAt(Or(v, 0x30), j)
  {
    StatusBitAt(UnpackStatus(v), true, j);
    OrBit(v, 0x30, j);
    MaskBits(j);
    if j < 8 {
      BitAtMask(v, j);
      UnpackedFlagBit(v, j);
    } else {
      Pow2Widths();
      BitAtBeyond(v, 8, j);
    }
  }

  /** The flags unpacked from `v` hold its bits, bits 4 and 5 reading as set. */
  lemma UnpackedFlagBit(v: byte, j: nat)
    requires j < 8
    ensures FlagBit(UnpackStatus(v), true, j) <==> j == 4 || j == 5 || Bit(v, BitValues[j])
  {
    if j == 0 {} else if j == 1 {} else if j == 2 {} else if j == 3 {}
    else if j == 4 {} else if j == 5 {} else if j == 6 {} else {}
  }

  /** The flags survive a trip through the status byte, whichever bit 4 was pushed. */
  lemma UnpackPack(f: Flags, brk: bool)
    ensures UnpackStatus(PackStatus(f, brk)) == f
  {
    var v := PackStatus(f, brk);
    forall j: nat | j < 8 && j != 4 && j != 5
      ensures Bit(v, BitValues[j]) == FlagBit(f, brk, j)
    {
      StatusBitAt(f, brk, j);
      BitAtMask(v, j);
    }
    assert BitValues[0] == 0x01 && BitValues[1] == 0x02 && BitValues[2] == 0x04 && BitValues[3] == 0x08;
    assert BitValues[6] == 0x40 && BitValues[7] == 0x80;
  }

  /** The interrupt entry's `_status & $EF` is the status with bit 4 clear. */
  lemma BreakMasked(f: Flags)
    ensures And8(Status(f), 0xef) == PackStatus(f, false)
  {
    forall j: nat
      ensures BitAt(And(Status(f), 0xef), j) == BitAt(PackStatus(f, false), j)
    {
      BreakMaskedBit(f, j);
    }
    BitsDetermine(And(Status(f), 0xef), PackStatus(f, false));
  }

  /** One bit of `BreakMasked`. */
  lemma BreakMaskedBit(f: Flags, j: nat)
    ensures BitAt(And(Status(f), 0xef), j) == BitAt(PackStatus(f, false), j)
  {
    StatusBitAt(f, true, j);
    StatusBitAt(f, false, j);
    AndBit(Status(f), 0xef, j);
    MaskBits(j);
    FlagBitBreak(f, j);
  }

  /** Only bit 4 of the packed status depends on the break bit, and it is that bit. */
  lemma FlagBitBreak(f: Flags, j: nat)
    ensures j != 4 ==> FlagBit(f, true, j) == FlagBit(f, false, j)
    ensures FlagBit(f, true, 4) && !FlagBit(f, false, 4)
  {
    if j == 0 {} else if j == 1 {} else if j == 2 {} else if j == 3 {}
    else if j == 5 {} else if j == 6 {} else if j == 7 {}
  }

  // ---- arithmetic helpers on the source's `int` intermediates ----

  /** `x & $80` on a two's-complement `int`. */
  predicate Bit7(x: int) { x % 0x100 >= 0x80 }

  /** `x & $0F` on a two's-complement `int` (Euclidean `%` agrees for negative `x`). */
  function Nib(x: int): int { x % 0x10 }

  /** `x & $F0` on a two's-complement `int`. */
  function HighNib(x: int): int { x % 0x100 / 0x10 * 0x10 }

  /** `SetZN`: Z when the value is zero, N from its bit 7. */
  function SetZN(f: Flags, v: byte): Flags {
    f.(zero := v == 0, negative := v >= 0x80)
  }

  datatype AluResult = AluResult(a: byte, f: Flags)

  // ---- ADC ----

  function AdcBinary(a: byte, v: byte, f: Flags): AluResult {
    var result := a + v + B(f.carry);
    var r := Wrap8(result);
    var f1 := f.(overflow := Bit7(a) != Bit7(result) && Bit7(v) != Bit7(result), carry := result > 0xff);
    AluResult(r, SetZN(f1, r))
  }

  /** `(byte)((low & $0F) + (high & $F0))`: a result byte from a low and a high nibble sum. */
  function Packed(low: int, high: int): byte { Wrap8(Nib(low) + HighNib(high)) }

  /** The unadjusted low and high nibble sums of a decimal ADC. */
  function AdcNibbles(a: byte, v: byte, carry: bool): (int, int) {
    var low := Nib(a) + Nib(v) + B(carry);
    (low, HighNib(a) + HighNib(v) + (if low > 9 then 0x10 else 0))
  }

  /**
   * Decimal ADC: the flags come from the unadjusted ("binary") nibble sums,
   * then each nibble that carried is adjusted by 6.
   */
  function AdcDecimal(a: byte, v: byte, f: Flags): AluResult {
    var (low, high) := AdcNibbles(a, v, f.carry);
    var halfCarry := low > 9;
    var carry := high > 0x9f;
    var binary := Packed(low, high);
    var f1 := SetZN(f.(carry := carry), binary)
                .(overflow := Bit7(a) != Bit7(binary) && Bit7(v) != Bit7(binary));
    AluResult(Packed(if halfCarry then low + 6 else low, if carry then high + 0x60 else high), f1)
  }

  function Adc(a: byte, v: byte, f: Flags): AluResult {
    if f.decimal then AdcDecimal(a, v, f) else AdcBinary(a, v, f)
  }

  // ---- SBC ----

  function SbcBinary(a: byte, v: byte, f: Flags): AluResult {
    var result := 0xff + a - v + B(f.carry);
    var r := Wrap8(result);
    // `~value` has bit 7 exactly when `value` does not
    var f1 := f.(overflow := Bit7(a) != Bit7(result) && Bit7(v) == Bit7(result), carry := result > 0xff);
    AluResult(r, SetZN(f1, r))
  }

  /** The unadjusted low and high nibble differences of a decimal SBC, offset to stay non-negative. */
  function SbcNibbles(a: byte, v: byte, carry: bool): (int, int) {
    var low := 0xf + Nib(a) - Nib(v) + B(carry);
    (low, 0xf0 + HighNib(a) - HighNib(v) + (if low > 0xf then 0x10 else 0))
  }

  function SbcDecimal(a: byte, v: byte, f: Flags): AluResult {
    var (low, high) := SbcNibbles(a, v, f.carry);
    var halfCarry := low > 0xf;
    var carry := high > 0xff;
    var binary := Packed(low, high);
    var f1 := SetZN(f.(carry := carry), binary)
                .(overflow := Bit7(a) != Bit7(binary) && Bit7(v) == Bit7(binary));
    AluResult(Packed(if halfCarry then low else low - 6, if carry then high else high - 0x60), f1)
  }

  function Sbc(a: byte, v: byte, f: Flags): AluResult {
    if f.decimal then SbcDecimal(a, v, f) else SbcBinary(a, v, f)
  }

  // ---- meaning of ADC and SBC ----

  /**
   * Binary ADC is addition with carry: A is the sum modulo 256, C the carry
   * out, and V says the sum of the operands as signed bytes does not fit.
   */
  lemma AdcBinaryMeaning(a: byte, v: byte, f: Flags)
    ensures var r := AdcBinary(a, v, f);
      var sum := a + v + B(f.carry);
      var signed := Signed8(a) + Signed8(v) + B(f.carry);
      r.a == sum % 0x100 && (r.f.carry <==> sum >= 0x100) &&
      (r.f.overflow <==> !(-128 <= signed <= 127)) &&
      (r.f.zero <==> r.a == 0) && (r.f.negative <==> r.a >= 0x80) &&
      r.f.interrupt == f.interrupt && r.f.decimal == f.decimal
  {
  }

  /**
   * Binary SBC is subtraction with borrow (a clear carry borrows one): C is
   * set when no borrow was needed, V when the signed difference does not fit.
   */
  lemma SbcBinaryMeaning(a: byte, v: byte, f: Flags)
    ensures var r := SbcBinary(a, v, f);
      var diff := a - v - (1 - B(f.carry));
      var signed := Signed8(a) - Signed8(v) - (1 - B(f.carry));
      r.a == diff % 0x100 && (r.f.carry <==> diff >= 0) &&
      (r.f.overflow <==> !(-128 <= signed <= 127)) &&
      (r.f.zero <==> r.a == 0) && (r.f.negative <==> r.a >= 0x80) &&
      r.f.interrupt == f.interrupt && r.f.decimal == f.decimal
  {
  }

  /** Two decimal digits packed in a byte. */
  predicate IsBcd(v: byte) { v % 0x10 <= 9 && v / 0x10 <= 9 }

  function BcdValue(v: byte): nat { v / 0x10 * 10 + v % 0x10 }

  function ToBcd(n: nat): byte
    requires n < 100
  {
    n / 10 * 0x10 + n % 10
  }

  /** `ToBcd` packs the two decimal digits of `n`, and `BcdValue` reads them back. */
  lemma ToBcdMeaning(n: nat)
    requires n < 100
    ensures IsBcd(ToBcd(n)) && BcdValue(ToBcd(n)) == n
  {
    var q, r := n / 10, n % 10;
    DivModOf(ToBcd(n), 0x10, q, r);
  }

  /** The nibble masks of a byte: its low digit and its high digit times 16. */
  lemma Nibbles(a: byte)
    ensures Nib(a) == a % 0x10 && HighNib(a) == a / 0x10 * 0x10
  {
    DivModOf(a, 0x100, 0, a);
  }

  /** `Nib` of a number from its high part and a low nibble. */
  lemma NibOf(x: int, q: int, r: int)
    requires 0 <= r < 0x10 && x == 0x10 * q + r
    ensures Nib(x) == r
  {
    DivModOf(x, 0x10, q, r);
  }

  /** `HighNib` of a number from its bits above 8 and a high nibble. */
  lemma HighNibOf(x: int, q: int, digit: int)
    requires 0 <= digit < 0x10 && x == 0x100 * q + 0x10 * digit
    ensures HighNib(x) == 0x10 * digit
  {
    DivModOf(x, 0x100, q, 0x10 * digit);
    DivModOf(0x10 * digit, 0x10, digit, 0);
  }

  /** The packed-decimal byte of two digits. */
  lemma BcdOf(digit: int, units: int)
    requires 0 <= digit <= 9 && 0 <= units <= 9
    ensures ToBcd(10 * digit + units) == digit * 0x10 + units
  {
    DivModOf(10 * digit + units, 10, digit, units);
  }

  /** `Packed` of a low sum with nibble `units` and a high sum with nibble `digit`. */
  lemma PackedDigits(low: int, high: int, k: int, j: int, digit: int, units: int)
    requires 0 <= digit <= 9 && 0 <= units <= 9
    requires low == 0x10 * k + units && high == 0x100 * j + 0x10 * digit
    ensures Packed(low, high) == digit * 0x10 + units
  {
    NibOf(low, k, units);
    HighNibOf(high, j, digit);
    DivModOf(units + 0x10 * digit, 0x100, 0, units + 0x10 * digit);
  }

  /** The packed-decimal byte of `n` modulo 100, from its digits. */
  lemma DecimalDigits(n: int, j: int, digit: int, units: int)
    requires 0 <= digit <= 9 && 0 <= units <= 9 && n == 100 * j + 10 * digit + units
    ensures n % 100 == 10 * digit + units && ToBcd(n % 100) == digit * 0x10 + units
  {
    DivModOf(n, 100, j, 10 * digit + units);
    BcdOf(digit, units);
  }

  /** The nibble sums of a decimal ADC on packed-decimal operands. */
  lemma AdcNibblesOfBcd(a: byte, v: byte, carry: bool)
    requires IsBcd(a) && IsBcd(v)
    ensures var (low, high) := AdcNibbles(a, v, carry);
      low == a % 0x10 + v % 0x10 + B(carry) &&
      high == (a / 0x10 + v / 0x10 + (if low > 9 then 1 else 0)) * 0x10
  {
    Nibbles(a);
    Nibbles(v);
  }

  /**
   * The decimal adjustment of an addition: with units sum `low` and tens sum
   * `tens`, adding 6 to each nibble that passed 9 leaves the two decimal
   * digits of `10 * tens + low`, and the carry says it reached 100.
   */
  lemma AddAdjust(low: int, tens: int)
    requires 0 <= low <= 19 && 0 <= tens <= 18
    ensures var hc := low > 9;
      var high := (tens + B(hc)) * 0x10;
      Packed(if hc then low + 6 else low, if high > 0x9f then high + 0x60 else high) ==
        ToBcd((10 * tens + low) % 100) &&
      (high > 0x9f <==> 10 * tens + low >= 100)
  {
    if low > 9 {
      if tens + 1 > 9 {
        PackedDigits(low + 6, (tens + 1) * 0x10 + 0x60, 1, 1, tens - 9, low - 10);
        DecimalDigits(10 * tens + low, 1, tens - 9, low - 10);
      } else {
        PackedDigits(low + 6, (tens + 1) * 0x10, 1, 0, tens + 1, low - 10);
        DecimalDigits(10 * tens + low, 0, tens + 1, low - 10);
      }
    } else {
      if tens > 9 {
        PackedDigits(low, tens * 0x10 + 0x60, 0, 1, tens - 10, low);
        DecimalDigits(10 * tens + low, 1, tens - 10, low);
      } else {
        PackedDigits(low, tens * 0x10, 0, 0, tens, low);
        DecimalDigits(10 * tens + low, 0, tens, low);
      }
    }
  }

  /** The result of a decimal ADC in terms of its nibble sums. */
  lemma AdcDecimalOf(a: byte, v: byte, f: Flags, low: int, high: int)
    requires AdcNibbles(a, v, f.carry) == (low, high)
    ensures AdcDecimal(a, v, f).a == Packed(if low > 9 then low + 6 else low, if high > 0x9f then high + 0x60 else high)
    ensures AdcDecimal(a, v, f).f.carry <==> high > 0x9f
  {
  }

  /** The flags of a decimal ADC in terms of the byte its nibble sums pack to before the adjust. */
  lemma AdcDecimalFlagsOf(a: byte, v: byte, f: Flags, low: int, high: int)
    requires AdcNibbles(a, v, f.carry) == (low, high)
    ensures var binary := Packed(low, high);
      AdcDecimal(a, v, f).f == SetZN(f.(carry := high > 0x9f), binary)
                                .(overflow := Bit7(a) != Bit7(binary) && Bit7(v) != Bit7(binary))
  {
  }

  /**
   * Decimal ADC on packed-decimal operands is decimal addition: A holds the
   * last two digits of the sum and C says the sum reached 100.
   */
  lemma AdcDecimalMeaning(a: byte, v: byte, f: Flags)
    requires IsBcd(a) && IsBcd(v)
    ensures var r := AdcDecimal(a, v, f);
      var sum := BcdValue(a) + BcdValue(v) + B(f.carry);
      r.a == ToBcd(sum % 100) && (r.f.carry <==> sum >= 100)
  {
    AdcNibblesOfBcd(a, v, f.carry);
    var low, tens := a % 0x10 + v % 0x10 + B(f.carry), a / 0x10 + v / 0x10;
    AdcDecimalOf(a, v, f, low, (tens + B(low > 9)) * 0x10);
    AddAdjust(low, tens);
    assert BcdValue(a) + BcdValue(v) + B(f.carry) == 10 * tens + low;
  }

  /** The nibble differences of a decimal SBC on packed-decimal operands. */
  lemma SbcNibblesOfBcd(a: byte, v: byte, carry: bool)
    requires IsBcd(a) && IsBcd(v)
    ensures var (low, high) := SbcNibbles(a, v, carry);
      low == 0xf + a % 0x10 - v % 0x10 + B(carry) &&
      high == (0xf + a / 0x10 - v / 0x10 + (if low > 0xf then 1 else 0)) * 0x10
  {
    Nibbles(a);
    Nibbles(v);
  }

  /**
   * The decimal adjustment of a subtraction: with offset units difference
   * `low` and tens difference `tens`, taking 6 from each nibble that
   * borrowed leaves the two decimal digits of the difference modulo 100, and
   * the carry says nothing was borrowed.
   */
  lemma SubtractAdjust(low: int, tens: int)
    requires 6 <= low <= 25 && -9 <= tens <= 9
    ensures var hc := low > 0xf;
      var high := (0xf + tens + B(hc)) * 0x10;
      var n := 10 * tens + low - 16;
      Packed(if hc then low else low - 6, if high > 0xff then high else high - 0x60) ==
        ToBcd(n % 100) &&
      (high > 0xff <==> n >= 0)
  {
    if low > 0xf {
      SubtractAdjustNoHalfBorrow(low, tens);
    } else {
      SubtractAdjustHalfBorrow(low, tens);
    }
  }

  /** `SubtractAdjust` when the units did not borrow: only the tens may need the 6 taken off. */
  lemma SubtractAdjustNoHalfBorrow(low: int, tens: int)
    requires 0xf < low <= 25 && -9 <= tens <= 9
    ensures var high := (0x10 + tens) * 0x10;
      var n := 10 * tens + low - 16;
      Packed(low, if high > 0xff then high else high - 0x60) == ToBcd(n % 100) && (high > 0xff <==> n >= 0)
  {
    if tens < 0 {
      PackedDigits(low, (0x10 + tens) * 0x10 - 0x60, 1, 0, tens + 10, low - 16);
      DecimalDigits(10 * tens + low - 16, -1, tens + 10, low - 16);
    } else {
      PackedDigits(low, (0x10 + tens) * 0x10, 1, 1, tens, low - 16);
      DecimalDigits(10 * tens + low - 16, 0, tens, low - 16);
    }
  }

  /** `SubtractAdjust` when the units borrowed: they lose 6, and the tens lose one more. */
  lemma SubtractAdjustHalfBorrow(low: int, tens: int)
    requires 6 <= low <= 0xf && -9 <= tens <= 9
    ensures var high := (0xf + tens) * 0x10;
      var n := 10 * tens + low - 16;
      Packed(low - 6, if high > 0xff then high else high - 0x60) == ToBcd(n % 100) && (high > 0xff <==> n >= 0)
  {
    if tens - 1 < 0 {
      PackedDigits(low - 6, (0xf + tens) * 0x10 - 0x60, 0, 0, tens + 9, low - 6);
      DecimalDigits(10 * tens + low - 16, -1, tens + 9, low - 6);
    } else {
      PackedDigits(low - 6, (0xf + tens) * 0x10, 0, 1, tens - 1, low - 6);
      DecimalDigits(10 * tens + low - 16, 0, tens - 1, low - 6);
    }
  }

  /** The result of a decimal SBC in terms of its nibble differences. */
  lemma SbcDecimalOf(a: byte, v: byte, f: Flags, low: int, high: int)
    requires SbcNibbles(a, v, f.carry) == (low, high)
    ensures SbcDecimal(a, v, f).a == Packed(if low > 0xf then low else low - 6, if high > 0xff then high else high - 0x60)
    ensures SbcDecimal(a, v, f).f.carry <==> high > 0xff
  {
  }

  /**
   * Decimal SBC on packed-decimal operands is decimal subtraction with
   * borrow: A holds the difference modulo 100 and C says no borrow was needed.
   */
  lemma SbcDecimalMeaning(a: byte, v: byte, f: Flags)
    requires IsBcd(a) && IsBcd(v)
    ensures var r := SbcDecimal(a, v, f);
      var diff := BcdValue(a) - BcdValue(v) - (1 - B(f.carry));
      r.a == ToBcd(diff % 100) && (r.f.carry <==> diff >= 0)
  {
    SbcNibblesOfBcd(a, v, f.carry);
    var low, tens := 0xf + a % 0x10 - v % 0x10 + B(f.carry), a / 0x10 - v / 0x10;
    SbcDecimalOf(a, v, f, low, (0xf + tens + B(low > 0xf)) * 0x10);
    SubtractAdjust(low, tens);
    assert BcdValue(a) - BcdValue(v) - (1 - B(f.carry)) == 10 * tens + low - 16;
  }

  /** $79 + $00 with carry in decimal mode gives $80 with carry clear (and V set from the binary sum). */
  lemma DecimalAdcExample(f: Flags)
    requires f.decimal && f.carry
    ensures Adc(0x79, 0x00, f).a == 0x80 && !Adc(0x79, 0x00, f).f.carry
    ensures Adc(0x79, 0x00, f).f.overflow && Adc(0x79, 0x00, f).f.negative
  {
    Nibbles(0x79);
    Nibbles(0);
    assert AdcNibbles(0x79, 0, true) == (10, 0x80);
    NibOf(10, 0, 10);
    HighNibOf(0x80, 0, 8);
    NibOf(16, 1, 0);
    assert Packed(10, 0x80) == 0x8a;
    assert Packed(16, 0x80) == 0x80;
  }

  /**
   * The byte decimal ADC takes its Z, N and V from is the one before the
   * decimal adjust: the plain sum, with $10 more when the low digits add up to
   * 10..15 (their half carry passes into the high nibble without the low
   * nibble wrapping).
   */
  lemma AdcDecimalUnadjusted(a: byte, v: byte, c: bool)
    ensures var (low, high) := AdcNibbles(a, v, c);
      Packed(low, high) == (a + v + B(c) + (if 10 <= low <= 15 then 0x10 else 0)) % 0x100
  {
    Nibbles(a);
    Nibbles(v);
    var ha, la, hv, lv := a / 0x10, a % 0x10, v / 0x10, v % 0x10;
    assert a == 0x10 * ha + la && v == 0x10 * hv + lv;
    var (low, high) := AdcNibbles(a, v, c);
    assert low == la + lv + B(c);
    var wraps := low >= 0x10;
    var units := if wraps then low - 0x10 else low;
    NibOf(low, B(wraps), units);
    var tens := ha + hv + B(low > 9);
    assert high == 0x10 * tens;
    var q := if tens >= 0x10 then 1 else 0;
    var digit := tens - 0x10 * q;
    HighNibOf(high, q, digit);
    var x := units + 0x10 * digit;
    assert Packed(low, high) == x;
    var sum := a + v + B(c) + (if 10 <= low <= 15 then 0x10 else 0);
    assert sum == 0x100 * q + x;
    DivModOf(sum, 0x100, q, x);
  }

  /**
   * Decimal ADC sets Z, N and V as binary ADC does, from that unadjusted
   * byte, and keeps I and D.
   */
  lemma AdcDecimalFlags(a: byte, v: byte, f: Flags)
    ensures var r := AdcDecimal(a, v, f);
      var low := Nib(a) + Nib(v) + B(f.carry);
      var unadjusted := (a + v + B(f.carry) + (if 10 <= low <= 15 then 0x10 else 0)) % 0x100;
      (r.f.zero <==> unadjusted == 0) && (r.f.negative <==> unadjusted >= 0x80) &&
      (r.f.overflow <==> Bit7(a) != Bit7(unadjusted) && Bit7(v) != Bit7(unadjusted)) &&
      r.f.interrupt == f.interrupt && r.f.decimal == f.decimal
  {
    var (low, high) := AdcNibbles(a, v, f.carry);
    AdcDecimalUnadjusted(a, v, f.carry);
    AdcDecimalFlagsOf(a, v, f, low, high);
  }

  /** When the low digits do not add up to 10..15, decimal ADC's Z, N and V are those of binary ADC. */
  lemma AdcDecimalFlagsAsBinary(a: byte, v: byte, f: Flags)
    requires !(10 <= Nib(a) + Nib(v) + B(f.carry) <= 15)
    ensures var (r, s) := (AdcDecimal(a, v, f), AdcBinary(a, v, f));
      r.f.zero == s.f.zero && r.f.negative == s.f.negative && r.f.overflow == s.f.overflow
  {
    var sum := a + v + B(f.carry);
    var binary := Packed(AdcNibbles(a, v, f.carry).0, AdcNibbles(a, v, f.carry).1);
    assert binary == Wrap8(sum) by { AdcDecimalUnadjusted(a, v, f.carry); }
    DivModOf(binary, 0x100, 0, binary);
    assert Bit7(binary) == Bit7(sum);
  }

  // ---- compare ----

  /** `Cxx`: C when the register is at least the operand, Z and N from the wrapped difference. */
  function Compare(f: Flags, register: byte, v: byte): Flags {
    SetZN(f.(carry := register >= v), Wrap8(register - v))
  }

  /** A compare decides equality and order of the unsigned register and operand, and keeps A, I, D, V. */
  lemma CompareMeaning(f: Flags, register: byte, v: byte)
    ensures var g := Compare(f, register, v);
      (g.zero <==> register == v) && (g.carry <==> register >= v) &&
      (g.carry && !g.zero <==> register > v) &&
      g.overflow == f.overflow && g.interrupt == f.interrupt && g.decimal == f.decimal
  {
  }

  // ---- read-modify-write operations ----

  datatype ModifyOp = ASL | LSR | ROL | ROR | INC | DEC

  /** The byte an ASL/LSR/ROL/ROR/INC/DEC leaves and the flags after it. */
  function Modify(op: ModifyOp, v: byte, f: Flags): (r: (byte, Flags))
  {
    var (value, carry) := match op
      case ASL => (Wrap8(v * 2), v >= 0x80)
      case LSR => (v / 2, v % 2 == 1)
      case ROL => (Wrap8(v * 2) + B(f.carry), v >= 0x80)
      case ROR => (v / 2 + 0x80 * B(f.carry), v % 2 == 1)
      case INC => (Wrap8(v + 1), f.carry)
      case DEC => (Wrap8(v - 1), f.carry);
    (value, SetZN(f.(carry := carry), value))
  }

  /** A rotate is a 9-bit rotation through the carry: ROR undoes ROL. */
  lemma RolThenRor(v: byte, f: Flags)
    ensures var (v1, f1) := Modify(ROL, v, f);
      Modify(ROR, v1, f1).0 == v && Modify(ROR, v1, f1).1.carry == f.carry
  {
    var top := B(v >= 0x80);
    var rest := v - 0x80 * top;
    DivModOf(v * 2, 0x100, top, 2 * rest);
    DivModOf(2 * rest + B(f.carry), 2, rest, B(f.carry));
  }

  /** ... and ROL undoes ROR. */
  lemma RorThenRol(v: byte, f: Flags)
    ensures var (v1, f1) := Modify(ROR, v, f);
      Modify(ROL, v1, f1).0 == v && Modify(ROL, v1, f1).1.carry == f.carry
  {
    assert v == 2 * (v / 2) + v % 2;
  }

  /** INC and DEC wrap and undo each other, and leave C alone. */
  lemma IncDecRoundTrip(v: byte, f: Flags)
    ensures Modify(DEC, Modify(INC, v, f).0, f).0 == v
    ensures Modify(INC, Modify(DEC, v, f).0, f).0 == v
    ensures Modify(INC, v, f).1.carry == f.carry && Modify(DEC, v, f).1.carry == f.carry
    ensures Modify(INC, 0xff, f).0 == 0 && Modify(DEC, 0, f).0 == 0xff
  {
    var up := if v == 0xff then 0 else v + 1;
    var down := if v == 0 then 0xff else v - 1;
    DivModOf(v + 1, 0x100, B(v == 0xff), up);
    DivModOf(v - 1, 0x100, if v == 0 then -1 else 0, down);
    DivModOf(up - 1, 0x100, if up == 0 then -1 else 0, v);
    DivModOf(down + 1, 0x100, B(down == 0xff), v);
    DivModOf(0x100, 0x100, 1, 0);
    DivModOf(-1, 0x100, -1, 0xff);
  }

  /** ASL is doubling with the lost top bit in C; LSR is halving with the lost bottom bit in C. */
  lemma ShiftMeaning(v: byte, f: Flags)
    ensures var (r, g) := Modify(ASL, v, f); r + 0x100 * B(g.carry) == 2 * v
    ensures var (r, g) := Modify(LSR, v, f); 2 * r + B(g.carry) == v
  {
  }
}
