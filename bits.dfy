/**
 * Fixed-width unsigned integers and the bitwise operators of C on them.
 *
 * Both cores store `uint8_t` and `uint16_t` values; they are modelled as the
 * integer subranges `byte` and `word`, and every C truncation is written out
 * as an explicit `% 0x100` or `% 0x10000`.  The bitwise operators `&`, `|`
 * and `^` are defined bit by bit on natural numbers, so that their laws are
 * proved here by induction on the width.
 */
module Bits {
  type byte = x: int | 0 <= x < 0x100
  type word = x: int | 0 <= x < 0x10000

  function Pow2(n: nat): (r: nat)
    ensures r >= 1
  {
    if n == 0 then 1 else 2 * Pow2(n - 1)
  }

  /** Bit `k` of `x`, 0 being the least significant bit. */
  function Bit(x: nat, k: nat): (r: nat)
    ensures r < 2
  {
    if k == 0 then x % 2 else Bit(x / 2, k - 1)
  }

  /** `a & b` on the low `width` bits. */
  function BitAnd(a: nat, b: nat, width: nat): nat
  {
    if width == 0 then 0
    else 2 * BitAnd(a / 2, b / 2, width - 1) + (if a % 2 == 1 && b % 2 == 1 then 1 else 0)
  }

  /** `a | b` on the low `width` bits. */
  function BitOr(a: nat, b: nat, width: nat): nat
  {
    if width == 0 then 0
    else 2 * BitOr(a / 2, b / 2, width - 1) + (if a % 2 == 1 || b % 2 == 1 then 1 else 0)
  }

  /** `a ^ b` on the low `width` bits. */
  function BitXor(a: nat, b: nat, width: nat): nat
  {
    if width == 0 then 0
    else 2 * BitXor(a / 2, b / 2, width - 1) + (if a % 2 != b % 2 then 1 else 0)
  }

  lemma {:induction false} BitAndAt(a: nat, b: nat, width: nat, k: nat)
    requires k < width
    ensures Bit(BitAnd(a, b, width), k) == (if Bit(a, k) == 1 && Bit(b, k) == 1 then 1 else 0)
  {
    if k > 0 { BitAndAt(a / 2, b / 2, width - 1, k - 1); }
  }

  lemma {:induction false} BitOrAt(a: nat, b: nat, width: nat, k: nat)
    requires k < width
    ensures Bit(BitOr(a, b, width), k) == (if Bit(a, k) == 1 || Bit(b, k) == 1 then 1 else 0)
  {
    if k > 0 { BitOrAt(a / 2, b / 2, width - 1, k - 1); }
  }

  lemma {:induction false} BitXorAt(a: nat, b: nat, width: nat, k: nat)
    requires k < width
    ensures Bit(BitXor(a, b, width), k) == (if Bit(a, k) != Bit(b, k) then 1 else 0)
  {
    if k > 0 { BitXorAt(a / 2, b / 2, width - 1, k - 1); }
  }

  lemma {:induction false} BitAndBound(a: nat, b: nat, width: nat)
    ensures BitAnd(a, b, width) < Pow2(width)
  {
    if width > 0 { BitAndBound(a / 2, b / 2, width - 1); }
  }

  lemma {:induction false} BitOrBound(a: nat, b: nat, width: nat)
    ensures BitOr(a, b, width) < Pow2(width)
  {
    if width > 0 { BitOrBound(a / 2, b / 2, width - 1); }
  }

  lemma {:induction false} BitXorBound(a: nat, b: nat, width: nat)
    ensures BitXor(a, b, width) < Pow2(width)
  {
    if width > 0 { BitXorBound(a / 2, b / 2, width - 1); }
  }

  /** Below `Pow2(width)`, a number is determined by its low `width` bits. */
  lemma {:induction false} BitsDetermine(a: nat, b: nat, width: nat)
    requires a < Pow2(width) && b < Pow2(width)
    requires forall k | 0 <= k < width :: Bit(a, k) == Bit(b, k)
    ensures a == b
  {
    if width > 0 {
      forall k | 0 <= k < width - 1
        ensures Bit(a / 2, k) == Bit(b / 2, k)
      {
        assert Bit(a, k + 1) == Bit(b, k + 1);
      }
      BitsDetermine(a / 2, b / 2, width - 1);
      assert Bit(a, 0) == Bit(b, 0);
    }
  }

  /** The bits of `x` above its magnitude are clear. */
  lemma {:induction false} HighBitsClear(x: nat, k: nat)
    requires x < Pow2(k)
    ensures Bit(x, k) == 0
  {
    if k > 0 { HighBitsClear(x / 2, k - 1); }
  }

  /** `a & b` is at most either operand. */
  lemma {:induction false} BitAndAtMost(a: nat, b: nat, width: nat)
    ensures BitAnd(a, b, width) <= a && BitAnd(a, b, width) <= b
  {
    if width > 0 { BitAndAtMost(a / 2, b / 2, width - 1); }
  }

  function And8(a: byte, b: byte): (r: byte)
  {
    BitAndBound(a, b, 8);
    BitAnd(a, b, 8)
  }

  function Or8(a: byte, b: byte): (r: byte)
  {
    BitOrBound(a, b, 8);
    BitOr(a, b, 8)
  }

  function Xor8(a: byte, b: byte): (r: byte)
  {
    BitXorBound(a, b, 8);
    BitXor(a, b, 8)
  }

  /** `~x` truncated to eight bits. */
  function Not8(x: byte): byte
  {
    0xFF - x
  }

  /** `x ^ y` is zero exactly when `x == y`. */
  lemma XorZeroIffEqual(a: byte, b: byte)
    ensures Xor8(a, b) == 0 <==> a == b
  {
    if Xor8(a, b) == 0 {
      forall k | 0 <= k < 8 ensures Bit(a, k) == Bit(b, k) {
        BitXorAt(a, b, 8, k);
        HighBitsClear(0, k);
      }
      BitsDetermine(a, b, 8);
    }
    if a == b {
      XorSelf(a, 8);
    }
  }

  lemma {:induction false} XorSelf(a: nat, width: nat)
    ensures BitXor(a, a, width) == 0
  {
    if width > 0 { XorSelf(a / 2, width - 1); }
  }

  /** `|` only adds bits: every bit set in `a` is set in `a | b`. */
  lemma OrKeepsBits(a: byte, b: byte, k: nat)
    requires k < 8
    ensures Bit(a, k) == 1 ==> Bit(Or8(a, b), k) == 1
    ensures Bit(Or8(a, b), k) == 1 <==> Bit(a, k) == 1 || Bit(b, k) == 1
  {
    BitOrAt(a, b, 8, k);
  }

  /** `x | (1 << k)` sets bit `k` and keeps the others. */
  lemma SetBitAt(x: byte, k: nat, j: nat)
    requires k < 8 && j < 8
    ensures Pow2(k) < 0x100
    ensures Bit(Or8(x, Pow2(k)), j) == if j == k then 1 else Bit(x, j)
  {
    PowBits(k, j);
    BitOrAt(x, Pow2(k), 8, j);
  }

  /** `x & ~(1 << k)` clears bit `k` and keeps the others. */
  lemma ClearBitAt(x: byte, k: nat, j: nat)
    requires k < 8 && j < 8
    ensures Pow2(k) < 0x100
    ensures Bit(And8(x, Not8(Pow2(k))), j) == if j == k then 0 else Bit(x, j)
  {
    PowBits(k, j);
    NotBits(Pow2(k), j);
    BitAndAt(x, Not8(Pow2(k)), 8, j);
  }

  /** `1 << k` has exactly bit `k` set. */
  lemma {:induction false} PowBits(k: nat, j: nat)
    requires k < 8 && j < 8
    ensures Pow2(k) < 0x100
    ensures Bit(Pow2(k), j) == if j == k then 1 else 0
  {
    PowMonotone(k, 8);
    if k == 0 {
      if j > 0 { HighBitsClear(0, j - 1); }
    } else if j == 0 {
      assert Pow2(k) % 2 == 0;
    } else {
      PowBits(k - 1, j - 1);
    }
  }

  lemma {:induction false} PowMonotone(k: nat, n: nat)
    requires k < n
    ensures Pow2(k) < Pow2(n)
  {
    if k < n - 1 { PowMonotone(k, n - 1); }
  }

  /** `~x` on eight bits flips each bit. */
  lemma NotBits(x: byte, j: nat)
    requires j < 8
    ensures Bit(Not8(x), j) == 1 - Bit(x, j)
  {
    assert BitXor(x, 0xFF, 8) == Not8(x) by {
      NotIsXor(x);
    }
    BitXorAt(x, 0xFF, 8, j);
    AllOnes(j);
  }

  lemma NotIsXor(x: byte)
    ensures BitXor(x, 0xFF, 8) == 0xFF - x
  {
    forall k | 0 <= k < 8 ensures Bit(BitXor(x, 0xFF, 8), k) == Bit(0xFF - x, k) {
      BitXorAt(x, 0xFF, 8, k);
      AllOnes(k);
      Complement(x, k, 8);
    }
    BitXorBound(x, 0xFF, 8);
    BitsDetermine(BitXor(x, 0xFF, 8), 0xFF - x, 8);
  }

  lemma {:induction false} AllOnes(k: nat)
    requires k < 8
    ensures Bit(0xFF, k) == 1
  {
    if k > 0 { AllOnesBelow(0xFF, 8, k); }
  }

  lemma {:induction false} AllOnesBelow(x: nat, n: nat, k: nat)
    requires x == Pow2(n) - 1 && k < n
    ensures Bit(x, k) == 1
  {
    if k > 0 {
      assert x / 2 == Pow2(n - 1) - 1;
      AllOnesBelow(x / 2, n - 1, k - 1);
    }
  }

  /** Subtracting from `2^n - 1` flips each of the low `n` bits. */
  lemma {:induction false} Complement(x: nat, k: nat, n: nat)
    requires x < Pow2(n) && k < n
    ensures Bit(Pow2(n) - 1 - x, k) == 1 - Bit(x, k)
  {
    if k > 0 {
      assert (Pow2(n) - 1 - x) / 2 == Pow2(n - 1) - 1 - x / 2;
      Complement(x / 2, k - 1, n - 1);
    }
  }

  /** The least significant byte of a word. */
  function Lsb(w: word): byte { w % 0x100 }

  /** The most significant byte of a word. */
  function Msb(w: word): byte { w / 0x100 }

  /** A `uint8_t` read through an `int8_t`: two's complement. */
  function Signed8(b: byte): (r: int)
    ensures -128 <= r < 128
    ensures (r + 0x100) % 0x100 == b
  {
    if b < 0x80 then b else b - 0x100
  }
}
