// Machine-width integers shared by every component. The C# `byte`, `ushort`
// and `uint` of the emulator are modelled as bounded naturals; every `++`,
// `--`, `+=` and narrowing cast of the source is written out as the modulo
// it performs, and every mask with a single bit as a division test.
module Bits {
  type byte = x: int | 0 <= x < 0x100
  type word = x: int | 0 <= x < 0x1_0000

  const UintRange: nat := 0x1_0000_0000
  type uint = x: int | 0 <= x < 0x1_0000_0000

  datatype Option<T> = None | Some(value: T)

  /** `VIC2.bitValues`: the single-bit masks 0x01..0x80. */
  const BitValues: seq<byte> := [0x01, 0x02, 0x04, 0x08, 0x10, 0x20, 0x40, 0x80]

  /** Low byte of a word (`w & 0xFF`). */
  function Lo(w: word): byte { w % 0x100 }

  /** High byte of a word (`w >> 8`). */
  function Hi(w: word): byte { w / 0x100 }

  /** Little-endian composition `lo | hi << 8` (the CPU's `Combine`). */
  function Word(lo: byte, hi: byte): (w: word)
    ensures Lo(w) == lo && Hi(w) == hi
  {
    hi * 0x100 + lo
  }

  lemma WordOfHalves(w: word)
    ensures Word(Lo(w), Hi(w)) == w
  {
  }

  /** `(byte)x`: truncation of any integer to its low eight bits. */
  function Wrap8(x: int): byte { x % 0x100 }

  /** `(ushort)x`: truncation to sixteen bits. */
  function Wrap16(x: int): word { x % 0x1_0000 }

  /** `(sbyte)b`: two's-complement reading of a byte. */
  function Signed8(b: byte): (n: int)
    ensures -128 <= n < 128
    ensures Wrap8(n) == b
  {
    if b < 0x80 then b else b - 0x100
  }

  /** Division by one of the constant divisors used here, given its quotient and remainder. */
  lemma DivModOf(x: int, d: int, q: int, r: int)
    requires d == 1 || d == 2 || d == 4 || d == 8 || d == 0x20 || d == 10 || d == 16 || d == 0x40 || d == 0x80 || d == 100 || d == 0x100
    requires 0 <= r < d && x == d * q + r
    ensures x / d == q && x % d == r
  {
    if d == 2 {
    } else if d == 8 {
    } else if d == 0x40 {
    } else if d == 0x80 {
    } else if d == 10 {
    } else if d == 16 {
    } else if d == 100 {
    } else {
    }
  }

  /** `(x & mask) != 0` for a mask with a single bit set. */
  predicate Bit(x: nat, mask: nat)
    requires mask > 0
  {
    (x / mask) % 2 == 1
  }

  function Pow2(n: nat): (p: nat)
    ensures p >= 1
  {
    if n == 0 then 1 else 2 * Pow2(n - 1)
  }

  /** The powers of two that are the widths used here. */
  lemma Pow2Widths()
    ensures Pow2(8) == 0x100 && Pow2(16) == 0x1_0000 && Pow2(24) == 0x100_0000
  {
    assert Pow2(4) == 0x10;
    assert Pow2(8) == 0x100;
    assert Pow2(12) == 0x1000;
    assert Pow2(16) == 0x1_0000;
    assert Pow2(20) == 0x10_0000;
  }

  /** Bitwise AND of two naturals, one bit per recursion step. */
  function And(a: nat, b: nat): (r: nat)
    ensures r <= a && r <= b
    decreases a
  {
    if a == 0 || b == 0 then 0
    else 2 * And(a / 2, b / 2) + (if a % 2 == 1 && b % 2 == 1 then 1 else 0)
  }

  /** Bitwise OR. */
  function Or(a: nat, b: nat): (r: nat)
    ensures r >= a && r >= b && r <= a + b
    decreases a
  {
    if a == 0 then b
    else if b == 0 then a
    else 2 * Or(a / 2, b / 2) + (if a % 2 == 1 || b % 2 == 1 then 1 else 0)
  }

  /** Bitwise exclusive OR. */
  function Xor(a: nat, b: nat): (r: nat)
    ensures r <= a + b
    decreases a
  {
    if a == 0 then b
    else if b == 0 then a
    else 2 * Xor(a / 2, b / 2) + (if (a % 2 == 1) != (b % 2 == 1) then 1 else 0)
  }

  /** OR and XOR never leave the width of their operands. */
  lemma {:induction false} OrXorBelow(a: nat, b: nat, n: nat)
    requires a < Pow2(n) && b < Pow2(n)
    ensures Or(a, b) < Pow2(n) && Xor(a, b) < Pow2(n)
    decreases a
  {
    if a != 0 && b != 0 {
      assert n > 0;
      OrXorBelow(a / 2, b / 2, n - 1);
    }
  }

  /** XOR with an all-ones mask of the operand's width is the complement. */
  lemma {:induction false} XorAllOnes(a: nat, n: nat)
    requires a < Pow2(n)
    ensures Xor(a, Pow2(n) - 1) == Pow2(n) - 1 - a
  {
    if n > 0 && a != 0 {
      XorAllOnes(a / 2, n - 1);
    }
  }

  /** Bit `j` of `x`, counted from the least significant bit. */
  predicate BitAt(x: nat, j: nat)
    decreases j
  {
    if j == 0 then x % 2 == 1 else BitAt(x / 2, j - 1)
  }

  /** Bit `j` of `a & b` is set exactly when bit `j` is set in both. */
  lemma {:induction false} AndBit(a: nat, b: nat, j: nat)
    ensures BitAt(And(a, b), j) <==> BitAt(a, j) && BitAt(b, j)
    decreases j
  {
    if j > 0 {
      AndBit(a / 2, b / 2, j - 1);
      if a == 0 || b == 0 {
        ZeroHasNoBits(j);
      }
    }
  }

  lemma {:induction false} ZeroHasNoBits(j: nat)
    ensures !BitAt(0, j)
  {
    if j > 0 {
      ZeroHasNoBits(j - 1);
    }
  }

  /** Masking with a single power of two keeps exactly that bit. */
  lemma {:induction false} AndPow2(v: nat, k: nat)
    ensures And(v, Pow2(k)) == (if BitAt(v, k) then Pow2(k) else 0)
  {
    if v == 0 {
      ZeroHasNoBits(k);
    } else if k > 0 {
      AndPow2(v / 2, k - 1);
    }
  }

  /** Every bit below `k` of `2^k - 1` is set. */
  lemma {:induction false} LowOnes(k: nat, j: nat)
    requires j < k
    ensures BitAt(Pow2(k) - 1, j)
  {
    if j > 0 {
      LowOnes(k - 1, j - 1);
    }
  }

  /** For the eight bits of a byte, `BitAt` is the single-bit mask test with `BitValues`. */
  lemma BitAtMask(x: nat, i: nat)
    requires i < 8
    ensures BitAt(x, i) <==> Bit(x, BitValues[i])
  {
    var x1 := x / 2;
    var x2 := x1 / 2;
    var x3 := x2 / 2;
    var x4 := x3 / 2;
    var x5 := x4 / 2;
    var x6 := x5 / 2;
    var x7 := x6 / 2;
    assert x2 == x / 4;
    assert x3 == x / 8;
    assert x4 == x / 16;
    assert x5 == x / 32;
    assert x6 == x / 64;
    assert x7 == x / 128;
  }

  /** Bit `j` of `a | b` is set exactly when it is set in either. */
  lemma {:induction false} OrBit(a: nat, b: nat, j: nat)
    ensures BitAt(Or(a, b), j) <==> BitAt(a, j) || BitAt(b, j)
    decreases j
  {
    if a == 0 || b == 0 {
      ZeroHasNoBits(j);
    } else if j > 0 {
      OrBit(a / 2, b / 2, j - 1);
    }
  }

  /** No bit at or above the width of a number is set. */
  lemma {:induction false} BitAtBeyond(x: nat, n: nat, j: nat)
    requires x < Pow2(n) && j >= n
    ensures !BitAt(x, j)
    decreases n
  {
    if n == 0 {
      ZeroHasNoBits(j);
    } else {
      BitAtBeyond(x / 2, n - 1, j - 1);
    }
  }

  /** Numbers with the same bits are equal. */
  lemma {:induction false} BitsDetermine(a: nat, b: nat)
    requires forall j: nat :: BitAt(a, j) == BitAt(b, j)
    ensures a == b
    decreases a + b
  {
    if a != b {
      assert BitAt(a, 0) == BitAt(b, 0);
      forall j: nat
        ensures BitAt(a / 2, j) == BitAt(b / 2, j)
      {
        assert BitAt(a, j + 1) == BitAt(b, j + 1);
      }
      BitsDetermine(a / 2, b / 2);
    }
  }

  /** The bit at `mask` of `mask * (bit + 2 * high) + low`, where `low` is below `mask`. */
  lemma MaskBitOf(x: nat, mask: nat, bit: nat, high: nat, low: nat)
    requires mask == 1 || mask == 2 || mask == 4 || mask == 8 || mask == 0x10 || mask == 0x20 || mask == 0x40 || mask == 0x80
    requires bit < 2 && low < mask && x == mask * (bit + 2 * high) + low
    ensures Bit(x, mask) <==> bit == 1
  {
    DivModOf(x, mask, bit + 2 * high, low);
    DivModOf(bit + 2 * high, 2, high, bit);
  }

  function And8(a: byte, b: byte): byte
  {
    And(a, b)
  }

  function Or8(a: byte, b: byte): byte
  {
    OrXorBelow(a, b, 8);
    Or(a, b)
  }

  function Xor8(a: byte, b: byte): byte
  {
    OrXorBelow(a, b, 8);
    Xor(a, b)
  }
}
