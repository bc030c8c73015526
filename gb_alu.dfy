/**
 * The arithmetic and flag computations of the Game Boy instruction handlers
 * (`GB_CPU.c`), as pure functions from the operands and the current flags to
 * the result byte and the new flags.
 *
 * Each handler-level function computes what the C expression computes,
 * including where that differs from the SM83 semantics the handlers' own
 * comments describe.  `AddWithCarry`, `SubWithBorrow`, `IncrementReference`
 * and `ComplementCarryReference` state the documented semantics; the lemmas
 * below relate every handler-level function to them and exhibit an input for
 * each divergence.
 */
module GbAlu {
  import opened Bits
  import opened GbRegisterMap
  import opened GbRegisters

  /** The byte an 8-bit operation produces and the flags after it. */
  datatype AluResult = AluResult(value: byte, flags: Flags)

  /** The word a 16-bit operation produces and the flags after it. */
  datatype Alu16Result = Alu16Result(value: word, flags: Flags)

  /** `x & 0x0F` is the low nibble. */
  lemma LowNibbleMask(x: byte)
    ensures And8(x, 0x0F) == x % 16
  {
    var q1 := x / 2;
    var q2 := q1 / 2;
    var q3 := q2 / 2;
    var q4 := q3 / 2;
    AndZero(q4, 4);
    assert BitAnd(q3, 1, 5) == q3 % 2;
    assert BitAnd(q2, 3, 6) == 2 * BitAnd(q3, 1, 5) + q2 % 2;
    assert BitAnd(q1, 7, 7) == 2 * BitAnd(q2, 3, 6) + q1 % 2;
    assert BitAnd(x, 15, 8) == 2 * BitAnd(q1, 7, 7) + x % 2;
    assert x == 2 * q1 + x % 2 && q1 == 2 * q2 + q1 % 2;
    assert q2 == 2 * q3 + q2 % 2 && q3 == 2 * q4 + q3 % 2;
    RemainderOfSixteen(x, q4, 8 * (q3 % 2) + 4 * (q2 % 2) + 2 * (q1 % 2) + x % 2);
  }

  /** A split of `x` into sixteens and a rest below 16 gives the remainder. */
  lemma RemainderOfSixteen(x: nat, q: nat, s: nat)
    requires x == 16 * q + s && s < 16
    ensures x % 16 == s
  {
  }

  lemma {:induction false} AndZero(x: nat, width: nat)
    ensures BitAnd(x, 0, width) == 0
  {
    if width > 0 { AndZero(x / 2, width - 1); }
  }

  // ---------------------------------------------------------------------
  // Reference semantics of the SM83 arithmetic
  // ---------------------------------------------------------------------

  /** `A + v + carry`: the byte, Z on the byte, N clear, H and C the carries out of bits 3 and 7. */
  function AddWithCarry(a: byte, v: byte, carryIn: nat, flags: Flags): (r: AluResult)
    requires carryIn < 2
    ensures r.value + 0x100 * r.flags.carry == a + v + carryIn
    ensures r.flags.carry < 2 && r.flags.halfCarry < 2 && r.flags.zero < 2
    ensures r.flags.zero == 1 <==> r.value == 0
    ensures r.flags.halfCarry == 1 <==> a % 16 + v % 16 + carryIn >= 16
    ensures r.flags.n == 0
  {
    var sum := a + v + carryIn;
    AluResult(sum % 0x100, Flags(FromBool(sum % 0x100 == 0), 0, FromBool(a % 16 + v % 16 + carryIn > 15), FromBool(sum > 0xFF)))
  }

  /** `A - v - borrow`: the byte, Z on the byte, N set, H and C the borrows into bits 3 and 7. */
  function SubWithBorrow(a: byte, v: byte, borrowIn: nat, flags: Flags): (r: AluResult)
    requires borrowIn < 2
    ensures r.value == a - v - borrowIn + 0x100 * r.flags.carry
    ensures r.flags.carry < 2 && r.flags.halfCarry < 2 && r.flags.zero < 2
    ensures r.flags.zero == 1 <==> r.value == 0
    ensures borrowIn == 0 ==> (r.flags.zero == 1 <==> a == v)
    ensures r.flags.halfCarry == 1 <==> a % 16 < v % 16 + borrowIn
    ensures r.flags.carry == 1 <==> a < v + borrowIn
    ensures r.flags.n == 1
  {
    var diff := a - v - borrowIn;
    AluResult(diff % 0x100, Flags(FromBool(diff % 0x100 == 0), 1, FromBool(a % 16 < v % 16 + borrowIn), FromBool(diff < 0)))
  }

  /** Subtracting undoes adding, and adding undoes subtracting. */
  lemma SubUndoesAdd(a: byte, v: byte, c: nat, flags: Flags)
    requires c < 2
    ensures SubWithBorrow(AddWithCarry(a, v, c, flags).value, v, c, flags).value == a
    ensures AddWithCarry(SubWithBorrow(a, v, c, flags).value, v, c, flags).value == a
  {
  }

  /** The borrow of `a - v` is set exactly when the carry of `(a - v) + v` is. */
  lemma BorrowIsCarryBack(a: byte, v: byte, flags: Flags)
    ensures var d := SubWithBorrow(a, v, 0, flags);
            AddWithCarry(d.value, v, 0, flags).flags.carry == d.flags.carry
  {
  }

  // ---------------------------------------------------------------------
  // ADD, ADC, SUB, SBC as the handlers compute them
  // ---------------------------------------------------------------------

  /**
   * ADD A,r and ADD A,(HL): the byte and H and C as documented, but Z tests
   * the untruncated sum, so it is set only for 0 + 0.
   */
  function AddRegister(a: byte, v: byte, flags: Flags): (r: AluResult)
    ensures r.value + 0x100 * r.flags.carry == a + v
    ensures r.flags.zero == 1 <==> a == 0 && v == 0
    ensures r.flags.halfCarry == 1 <==> a % 16 + v % 16 >= 16
    ensures r.flags.n == 0 && r.flags.carry < 2 && r.flags.halfCarry < 2 && r.flags.zero < 2
  {
    var sum := a + v;
    AluResult(sum % 0x100, Flags(FromBool(sum == 0), 0, FromBool(a % 16 + v % 16 > 0xF), FromBool(sum > 0xFF)))
  }

  /**
   * ADD A,n: as ADD A,r except that H adds the low nibble of `n` to the low
   * nibble of the already updated A.
   */
  function AddImmediate(a: byte, v: byte, flags: Flags): (r: AluResult)
    ensures r.value + 0x100 * r.flags.carry == a + v
    ensures r.flags.zero == 1 <==> a == 0 && v == 0
    ensures r.flags.halfCarry == 1 <==> v % 16 + r.value % 16 >= 16
    ensures r.flags.n == 0 && r.flags.carry < 2 && r.flags.halfCarry < 2 && r.flags.zero < 2
  {
    var sum := a + v;
    AluResult(sum % 0x100, Flags(FromBool(sum == 0), 0, FromBool(v % 16 + (sum % 0x100) % 16 > 0xF), FromBool(sum > 0xFF)))
  }

  /**
   * ADC A,r and ADC A,n: the carry-in is the C field's value; H is the sum of
   * the new A's low nibble, `v`'s low nibble and `C > 0xF` (never true for a
   * 4-bit field), kept in the 5-bit H field.
   */
  function AddCarryRegister(a: byte, v: byte, flags: Flags): (r: AluResult)
    ensures r.value == (a + v + flags.carry) % 0x100
    ensures r.flags.carry == 1 <==> a + v + flags.carry >= 0x100
    ensures r.flags.zero == 1 <==> a + v + flags.carry == 0
    ensures r.flags.halfCarry == r.value % 16 + v % 16
    ensures r.flags.n == 0 && r.flags.carry < 2 && r.flags.zero < 2
  {
    var sum := a + flags.carry + v;
    var value := sum % 0x100;
    AluResult(value, Flags(FromBool(sum == 0), 0, (value % 16 + v % 16 + FromBool(flags.carry > 0xF)) % 0x20, FromBool(sum > 0xFF)))
  }

  /** ADC A,(HL): H and C as documented with the C field's value as carry-in; Z on the untruncated sum. */
  function AddCarryMemory(a: byte, v: byte, flags: Flags): (r: AluResult)
    ensures r.value == (a + v + flags.carry) % 0x100
    ensures r.flags.carry == 1 <==> a + v + flags.carry >= 0x100
    ensures r.flags.zero == 1 <==> a + v + flags.carry == 0
    ensures r.flags.halfCarry == 1 <==> a % 16 + v % 16 + flags.carry >= 16
    ensures r.flags.n == 0 && r.flags.carry < 2 && r.flags.halfCarry < 2 && r.flags.zero < 2
  {
    var sum := a + flags.carry + v;
    AluResult(sum % 0x100, Flags(FromBool(sum == 0), 0, FromBool(a % 16 + v % 16 + flags.carry > 0xF), FromBool(sum > 0xFF)))
  }

  /**
   * SBC A,n and SBC A,(HL): the borrow-in is the C field's value; H and C as
   * documented, Z on the untruncated difference.
   */
  function SubtractCarryMemory(a: byte, v: byte, flags: Flags): (r: AluResult)
    ensures r.value == (a - v - flags.carry) % 0x100
    ensures r.flags.zero == 1 <==> a == v + flags.carry
    ensures r.flags.halfCarry == 1 <==> a % 16 < v % 16 + flags.carry
    ensures r.flags.carry == 1 <==> a < v + flags.carry
    ensures r.flags.n == 1 && r.flags.carry < 2 && r.flags.halfCarry < 2 && r.flags.zero < 2
  {
    var diff := a - flags.carry - v;
    AluResult(diff % 0x100, Flags(FromBool(diff == 0), 1, FromBool(a % 16 - v % 16 - flags.carry < 0), FromBool(diff < 0)))
  }

  /** SBC A,r: as SBC A,(HL) except that C compares A with `v` alone, ignoring the borrow-in. */
  function SubtractCarryRegister(a: byte, v: byte, flags: Flags): (r: AluResult)
    ensures r.value == (a - v - flags.carry) % 0x100
    ensures r.flags.zero == 1 <==> a == v + flags.carry
    ensures r.flags.halfCarry == 1 <==> a % 16 < v % 16 + flags.carry
    ensures r.flags.carry == 1 <==> a < v
    ensures r.flags.n == 1 && r.flags.carry < 2 && r.flags.halfCarry < 2 && r.flags.zero < 2
  {
    var diff := a - flags.carry - v;
    AluResult(diff % 0x100, Flags(FromBool(diff == 0), 1, FromBool(a % 16 - v % 16 - flags.carry < 0), FromBool(a < v)))
  }

  /**
   * CP (HL): the difference is kept in a byte, H tests that byte against 0x0F
   * and C tests it against 0xFF, which a byte never exceeds.
   */
  function CompareMemory(a: byte, v: byte, flags: Flags): (r: Flags)
    ensures r.zero == 1 <==> a == v
    ensures r.halfCarry == 1 <==> (a - v) % 0x100 >= 0x10
    ensures r.carry == 0 && r.n == 1 && r.halfCarry < 2 && r.zero < 2
  {
    var diff: byte := (a - v) % 0x100;
    Flags(FromBool(diff == 0), 1, FromBool(diff > 0x0F), FromBool(diff > 0xFF))
  }

  // ---------------------------------------------------------------------
  // Logic
  // ---------------------------------------------------------------------

  /** AND n and AND (HL): Z on the result, N clear, H set, C clear. */
  function And(a: byte, v: byte, flags: Flags): (r: AluResult)
    ensures r.value <= a && r.value <= v
    ensures forall k | 0 <= k < 8 :: Bit(r.value, k) == 1 <==> Bit(a, k) == 1 && Bit(v, k) == 1
    ensures r.flags == Flags(FromBool(r.value == 0), 0, 1, 0)
  {
    BitAndAtMost(a, v, 8);
    AndBits(a, v);
    AluResult(And8(a, v), Flags(FromBool(And8(a, v) == 0), 0, 1, 0))
  }

  /** AND r: only Z changes. */
  function AndRegister(a: byte, v: byte, flags: Flags): (r: AluResult)
    ensures r.value == And(a, v, flags).value
    ensures r.flags == flags.(zero := FromBool(r.value == 0))
  {
    AluResult(And8(a, v), flags.(zero := FromBool(And8(a, v) == 0)))
  }

  /** XOR (every operand form): Z iff the operands are equal; N, H and C clear. */
  function Xor(a: byte, v: byte, flags: Flags): (r: AluResult)
    ensures r.value == 0 <==> a == v
    ensures forall k | 0 <= k < 8 :: Bit(r.value, k) == 1 <==> Bit(a, k) != Bit(v, k)
    ensures r.flags == Flags(FromBool(a == v), 0, 0, 0)
  {
    XorZeroIffEqual(a, v);
    XorBits(a, v);
    AluResult(Xor8(a, v), Flags(FromBool(Xor8(a, v) == 0), 0, 0, 0))
  }

  /** OR (every operand form): Z iff both operands are zero; N, H and C clear. */
  function Or(a: byte, v: byte, flags: Flags): (r: AluResult)
    ensures r.value == 0 <==> a == 0 && v == 0
    ensures forall k | 0 <= k < 8 :: Bit(r.value, k) == 1 <==> Bit(a, k) == 1 || Bit(v, k) == 1
    ensures r.flags == Flags(FromBool(r.value == 0), 0, 0, 0)
  {
    OrBits(a, v);
    OrZeroIffBothZero(a, v);
    AluResult(Or8(a, v), Flags(FromBool(Or8(a, v) == 0), 0, 0, 0))
  }

  lemma AndBits(a: byte, v: byte)
    ensures forall k | 0 <= k < 8 :: Bit(And8(a, v), k) == 1 <==> Bit(a, k) == 1 && Bit(v, k) == 1
  {
    forall k | 0 <= k < 8 ensures Bit(And8(a, v), k) == 1 <==> Bit(a, k) == 1 && Bit(v, k) == 1 {
      BitAndAt(a, v, 8, k);
    }
  }

  lemma XorBits(a: byte, v: byte)
    ensures forall k | 0 <= k < 8 :: Bit(Xor8(a, v), k) == 1 <==> Bit(a, k) != Bit(v, k)
  {
    forall k | 0 <= k < 8 ensures Bit(Xor8(a, v), k) == 1 <==> Bit(a, k) != Bit(v, k) {
      BitXorAt(a, v, 8, k);
    }
  }

  lemma OrBits(a: byte, v: byte)
    ensures forall k | 0 <= k < 8 :: Bit(Or8(a, v), k) == 1 <==> Bit(a, k) == 1 || Bit(v, k) == 1
  {
    forall k | 0 <= k < 8 ensures Bit(Or8(a, v), k) == 1 <==> Bit(a, k) == 1 || Bit(v, k) == 1 {
      BitOrAt(a, v, 8, k);
    }
  }

  lemma OrZeroIffBothZero(a: byte, v: byte)
    ensures Or8(a, v) == 0 <==> a == 0 && v == 0
  {
    OrBits(a, v);
    if Or8(a, v) == 0 {
      forall k | 0 <= k < 8 ensures Bit(a, k) == Bit(0, k) && Bit(v, k) == Bit(0, k) {
        HighBitsClear(0, k);
      }
      BitsDetermine(a, 0, 8);
      BitsDetermine(v, 0, 8);
    }
    if a == 0 && v == 0 {
      forall k | 0 <= k < 8 ensures Bit(Or8(a, v), k) == Bit(0, k) {
        HighBitsClear(0, k);
      }
      BitsDetermine(Or8(a, v), 0, 8);
    }
  }

  // ---------------------------------------------------------------------
  // INC, DEC, CPL, CCF, SCF
  // ---------------------------------------------------------------------

  /** INC r and INC (HL): the byte wraps, Z on it, N clear, H when the new byte exceeds 0x0F; C kept. */
  function Increment(v: byte, flags: Flags): (r: AluResult)
    ensures r.value == (v + 1) % 0x100
    ensures r.flags == flags.(zero := FromBool(v == 0xFF), n := 0, halfCarry := FromBool(r.value >= 0x10))
  {
    var value := (v + 1) % 0x100;
    AluResult(value, flags.(zero := FromBool(value == 0), n := 0, halfCarry := FromBool(value > 0x0F)))
  }

  /** INC with H the carry out of bit 3. */
  function IncrementReference(v: byte, flags: Flags): (r: AluResult)
    ensures r.value == AddWithCarry(v, 1, 0, flags).value
    ensures r.flags == AddWithCarry(v, 1, 0, flags).flags.(carry := flags.carry)
  {
    var value := (v + 1) % 0x100;
    AluResult(value, flags.(zero := FromBool(value == 0), n := 0, halfCarry := FromBool(value % 16 == 0)))
  }

  /**
   * DEC r and DEC (HL): the byte wraps, Z on it, N set, H when the low nibble
   * borrowed (it became 0xF); C kept.
   */
  function Decrement(v: byte, flags: Flags): (r: AluResult)
    ensures r.value == SubWithBorrow(v, 1, 0, flags).value
    ensures r.flags == SubWithBorrow(v, 1, 0, flags).flags.(carry := flags.carry)
  {
    var value := (v - 1) % 0x100;
    AluResult(value, flags.(zero := FromBool(value == 0), n := 1, halfCarry := FromBool(value % 16 == 0x0F)))
  }

  /** Incrementing undoes decrementing and the other way round. */
  lemma IncrementDecrementInverse(v: byte, flags: Flags)
    ensures Increment(Decrement(v, flags).value, flags).value == v
    ensures Decrement(Increment(v, flags).value, flags).value == v
  {
  }

  /** CPL: A becomes its complement, N and H set. */
  function Complement(a: byte, flags: Flags): (r: AluResult)
    ensures forall k | 0 <= k < 8 :: Bit(r.value, k) == 1 - Bit(a, k)
    ensures r.value + a == 0xFF
    ensures r.flags == flags.(n := 1, halfCarry := 1)
  {
    NotAllBits(a);
    AluResult(Not8(a), flags.(n := 1, halfCarry := 1))
  }

  lemma NotAllBits(a: byte)
    ensures forall k | 0 <= k < 8 :: Bit(Not8(a), k) == 1 - Bit(a, k)
  {
    forall k | 0 <= k < 8 ensures Bit(Not8(a), k) == 1 - Bit(a, k) {
      NotBits(a, k);
    }
  }

  /** CPL twice restores A. */
  lemma ComplementTwice(a: byte, flags: Flags)
    ensures Complement(Complement(a, flags).value, flags).value == a
  {
  }

  /**
   * CCF: N and H clear, and the 4-bit C field receives `~C`, which keeps
   * only the low four bits of the complement.
   */
  function ComplementCarry(flags: Flags): (r: Flags)
    ensures r.carry + flags.carry == 0x0F
    ensures r.carry == 0 <==> flags.carry == 0x0F
    ensures r == flags.(n := 0, halfCarry := 0, carry := r.carry)
  {
    flags.(n := 0, halfCarry := 0, carry := 0x0F - flags.carry)
  }

  /** CCF flipping whether the carry is set. */
  function ComplementCarryReference(flags: Flags): (r: Flags)
    ensures (r.carry != 0) != (flags.carry != 0)
    ensures r == flags.(n := 0, halfCarry := 0, carry := r.carry)
  {
    flags.(n := 0, halfCarry := 0, carry := FromBool(flags.carry == 0))
  }

  /** SCF: N and H clear, C set. */
  function SetCarry(flags: Flags): (r: Flags)
    ensures r.carry == 1 && r.n == 0 && r.halfCarry == 0 && r.zero == flags.zero
  {
    flags.(n := 0, halfCarry := 0, carry := 1)
  }

  // ---------------------------------------------------------------------
  // 16-bit arithmetic
  // ---------------------------------------------------------------------

  /** ADD HL,rr: the word wraps, H is the carry out of bit 11, C out of bit 15; Z and N kept. */
  function AddWord(hl: word, rr: word, flags: Flags): (r: Alu16Result)
    ensures r.value + 0x10000 * r.flags.carry == hl + rr
    ensures r.flags.halfCarry == 1 <==> hl % 0x1000 + rr % 0x1000 >= 0x1000
    ensures r.flags == flags.(halfCarry := r.flags.halfCarry, carry := r.flags.carry)
    ensures r.flags.carry < 2 && r.flags.halfCarry < 2
  {
    var sum := hl + rr;
    Alu16Result(sum % 0x10000, flags.(halfCarry := FromBool(hl % 0x1000 + rr % 0x1000 > 0xFFF), carry := FromBool(sum > 0xFFFF)))
  }

  /** `uint16_t` increment and decrement. */
  function Inc16(w: word): (r: word)
    ensures r == if w == 0xFFFF then 0 else w + 1
  {
    (w + 1) % 0x10000
  }

  function Dec16(w: word): (r: word)
    ensures r == if w == 0 then 0xFFFF else w - 1
  {
    (w - 1) % 0x10000
  }

  lemma Inc16Dec16Inverse(w: word)
    ensures Dec16(Inc16(w)) == w && Inc16(Dec16(w)) == w
  {
  }

  /** A word plus a signed byte, wrapped to sixteen bits (ADD SP,dd, LD HL,SP+dd, JR). */
  function AddSigned(w: word, d: byte): (r: word)
    ensures (r - w - Signed8(d)) % 0x10000 == 0
  {
    (w + Signed8(d)) % 0x10000
  }

  // ---------------------------------------------------------------------
  // Rotates and single-bit operations
  // ---------------------------------------------------------------------

  /** RLCA: A shifted left by one plus the C field's value; the flags are kept. */
  function RotateLeftCircularA(a: byte, flags: Flags): (r: AluResult)
    ensures r.value % 2 == 0
    ensures flags.carry == 0 ==> r.value == (2 * a) % 0x100
    ensures r.value == (a * Pow2(1 + flags.carry)) % 0x100
    ensures r.flags == flags
  {
    var q := a * Pow2(flags.carry);
    assert a * Pow2(1 + flags.carry) == 2 * q;
    AluResult((a * Pow2(1 + flags.carry)) % 0x100, flags)
  }

  /** RLA: A shifted left by one, bit 7 into C; Z and H clear, N kept. */
  function RotateLeftA(a: byte, flags: Flags): (r: AluResult)
    ensures r.value + 0x100 * r.flags.carry == 2 * a
    ensures r.flags == flags.(zero := 0, halfCarry := 0, carry := r.flags.carry)
  {
    var shifted := (2 * a) % 0x10000;
    AluResult(shifted % 0x100, flags.(zero := 0, halfCarry := 0, carry := FromBool(shifted > 0xFF)))
  }

  /** RRCA: A shifted right by one plus the C field's value; Z, H and C clear. */
  function RotateRightCircularA(a: byte, flags: Flags): (r: AluResult)
    ensures 2 * r.value <= a
    ensures flags.carry == 0 ==> r.value == a / 2
    ensures r.value == ShiftRight(a, 1 + flags.carry)
    ensures r.flags == flags.(zero := 0, halfCarry := 0, carry := 0)
  {
    ShiftRightHalves(a, 1 + flags.carry);
    var shifted := ShiftRight(a, 1 + flags.carry);
    AluResult(shifted, flags.(zero := 0, halfCarry := 0, carry := FromBool(shifted > 0xFF)))
  }

  lemma {:induction false} ShiftRightHalves(x: nat, n: nat)
    requires n >= 1
    ensures 2 * ShiftRight(x, n) <= x
  {
    if n > 1 {
      ShiftRightHalves(x / 2, n - 1);
    }
  }

  /** `x >> n` is 0 once the shift covers every bit of `x`. */
  lemma {:induction false} ShiftRightVanishes(x: nat, n: nat)
    requires x < Pow2(n)
    ensures ShiftRight(x, n) == 0
  {
    if n > 0 {
      ShiftRightVanishes(x / 2, n - 1);
    }
  }

  /** `x >> 2` is `x / 4`. */
  lemma ShiftRightTwo(x: nat)
    ensures ShiftRight(x, 2) == x / 4
  {
    var q, r := x / 4, x % 4;
    assert x == 4 * q + r;
    assert x / 2 == 2 * q + r / 2;
    assert ShiftRight(x / 2, 1) == ShiftRight((x / 2) / 2, 0);
  }

  /** `1 << (1 + c)` is a multiple of 0x100 once `c` reaches 7. */
  lemma {:induction false} ShiftPastByte(c: nat)
    requires c >= 7
    ensures Pow2(1 + c) == 0x100 * Pow2(c - 7)
  {
    if c > 7 {
      ShiftPastByte(c - 1);
    }
  }

  /**
   * RLCA shifts by one more than the C field's value: with C = 1 it shifts
   * by two, and from C = 7 on every bit of A is shifted out.
   */
  lemma LeftCircularShiftsByCarryPlusOne(a: byte, flags: Flags)
    ensures flags.carry == 1 ==> RotateLeftCircularA(a, flags).value == (4 * a) % 0x100
    ensures flags.carry >= 7 ==> RotateLeftCircularA(a, flags).value == 0
  {
    if flags.carry >= 7 {
      ShiftPastByte(flags.carry);
      var m := a * Pow2(flags.carry - 7);
      assert a * Pow2(1 + flags.carry) == 0x100 * m;
    }
  }

  /**
   * RRCA shifts by one more than the C field's value: with C = 1 it shifts
   * by two, and from C = 7 on every bit of A is shifted out.
   */
  lemma RightCircularShiftsByCarryPlusOne(a: byte, flags: Flags)
    ensures flags.carry == 1 ==> RotateRightCircularA(a, flags).value == a / 4
    ensures flags.carry >= 7 ==> RotateRightCircularA(a, flags).value == 0
  {
    if flags.carry >= 7 {
      assert Pow2(8) == 0x100;
      if flags.carry > 7 {
        PowMonotone(8, 1 + flags.carry);
      }
      ShiftRightVanishes(a, 1 + flags.carry);
    } else if flags.carry == 1 {
      ShiftRightTwo(a);
    }
  }

  /** RRA: A shifted right by one; Z, H and C clear. */
  function RotateRightA(a: byte, flags: Flags): (r: AluResult)
    ensures 2 * r.value <= a <= 2 * r.value + 1
    ensures r.flags == flags.(zero := 0, halfCarry := 0, carry := 0)
  {
    var shifted := a / 2;
    AluResult(shifted, flags.(zero := 0, halfCarry := 0, carry := FromBool(shifted > 0xFF)))
  }

  /**
   * RL r: bit 7 goes to C and the whole C field is or-ed in below the
   * shifted byte; Z on the result, N and H clear.  The C code ors the
   * field into the `int` shift and truncates the result to a byte; as the
   * field is below 0x100, truncating the shifted byte first is the same.
   */
  function RotateLeft(v: byte, flags: Flags): (r: AluResult)
    ensures r.flags == flags.(zero := FromBool(r.value == 0), n := 0, halfCarry := 0, carry := Bit(v, 7))
    ensures forall k | 0 <= k < 8 ::
              Bit(r.value, k) == if Bit(flags.carry, k) == 1 || (k > 0 && Bit(v, k - 1) == 1) then 1 else 0
    ensures flags.carry < 2 ==> r.value + 0x100 * Bit(v, 7) == 2 * v + flags.carry
  {
    assert Pow2(8) == 0x100;
    BitOrBound(flags.carry, (2 * v) % 0x100, 8);
    var shiftedIn := BitOr(flags.carry, (2 * v) % 0x100, 8);
    RotateLeftBits(v, flags.carry);
    ShiftInCarry(v, flags.carry);
    AluResult(shiftedIn, flags.(zero := FromBool(shiftedIn == 0), n := 0, halfCarry := 0, carry := Bit(v, 7)))
  }

  /** Removing bit `n` from a number that has it keeps every lower bit. */
  lemma {:induction false} LowerBitsKept(x: nat, n: nat, j: nat)
    requires j < n && x >= Pow2(n)
    ensures Bit(x - Pow2(n), j) == Bit(x, j)
  {
    var p := Pow2(n - 1);
    assert Pow2(n) == 2 * p;
    assert x == 2 * (x / 2) + x % 2;
    assert x - Pow2(n) == 2 * (x / 2 - p) + x % 2;
    if j > 0 {
      LowerBitsKept(x / 2, n - 1, j - 1);
    }
  }

  /** Bit k of the truncated `v << 1` is bit k - 1 of `v`, and bit 0 is clear. */
  lemma ShiftedByteBits(v: byte, k: nat)
    requires k < 8
    ensures Bit((2 * v) % 0x100, k) == if k > 0 then Bit(v, k - 1) else 0
  {
    var low := if v >= 0x80 then v - 0x80 else v;
    NineBitSplit(2 * v);
    assert (2 * v) % 0x100 == 2 * low;
    if k > 0 && v >= 0x80 {
      assert Pow2(7) == 0x80;
      LowerBitsKept(v, 7, k - 1);
    }
  }

  /** The bits RL leaves: the C field's bit k or-ed with bit k - 1 of the operand. */
  lemma RotateLeftBits(v: byte, c: nat)
    ensures forall k | 0 <= k < 8 ::
              Bit(BitOr(c, (2 * v) % 0x100, 8), k) == if Bit(c, k) == 1 || (k > 0 && Bit(v, k - 1) == 1) then 1 else 0
  {
    forall k | 0 <= k < 8
      ensures Bit(BitOr(c, (2 * v) % 0x100, 8), k) == if Bit(c, k) == 1 || (k > 0 && Bit(v, k - 1) == 1) then 1 else 0
    {
      BitOrAt(c, (2 * v) % 0x100, 8, k);
      ShiftedByteBits(v, k);
    }
  }

  /** With a carry-in of 0 or 1, or-ing it below the shifted byte adds it. */
  lemma ShiftInCarry(v: byte, c: nat)
    ensures c < 2 ==> BitOr(c, (2 * v) % 0x100, 8) + 0x100 * Bit(v, 7) == 2 * v + c
  {
    if c < 2 {
      var low := if v >= 0x80 then v - 0x80 else v;
      NineBitSplit(2 * v);
      assert (2 * v) % 0x100 == low * 2;
      assert Pow2(1) == 2 && Pow2(7) == 0x80 && Pow2(8) == 0x100;
      OrOfShifted(c, low, 1, 8);
      TopBitOf(v, 7);
    }
  }

  /**
   * After CCF has left C at 14, RL of 0 ors the whole field in: the
   * result is 0x0E with Z clear, where a one-bit carry would give 0.
   */
  lemma RotateLeftWideCarryExample(flags: Flags)
    requires flags.carry == 14
    ensures RotateLeft(0, flags).value == 0x0E
    ensures RotateLeft(0, flags).flags.zero == 0
  {
    var r := RotateLeft(0, flags);
    forall k | 0 <= k < 8
      ensures Bit(r.value, k) == Bit(0x0E, k)
    {
      assert Bit(0, k) == 0 by { HighBitsClear(0, k); }
    }
    assert Pow2(8) == 0x100;
    BitsDetermine(r.value, 0x0E, 8);
  }

  lemma NineBitSplit(s: int)
    requires 0 <= s < 0x200
    ensures s % 0x100 == if s >= 0x100 then s - 0x100 else s
  {
  }

  /** The top bit of a `k+1`-bit number says whether it reaches `2^k`. */
  lemma {:induction false} TopBitOf(x: nat, k: nat)
    requires x < Pow2(k + 1)
    ensures Bit(x, k) == FromBool(x >= Pow2(k))
  {
    if k > 0 {
      TopBitOf(x / 2, k - 1);
    }
  }

  /**
   * BIT b,r: Z when bit `b` of the operand is clear, C cleared (it receives
   * `Z > 0x0F`); N and H kept.
   */
  function TestBit(v: byte, b: nat, flags: Flags): (r: Flags)
    ensures r.zero == 1 <==> Bit(v, b) == 0
    ensures r == flags.(zero := r.zero, carry := 0)
  {
    var clear := BitAnd(ShiftRight(v, b), 1, 8) == 0;
    ShiftThenMaskIsBit(v, b);
    flags.(zero := FromBool(clear), carry := FromBool(FromBool(clear) > 0x0F))
  }

  lemma {:induction false} ShiftThenMaskIsBit(v: nat, b: nat)
    ensures BitAnd(ShiftRight(v, b), 1, 8) == Bit(v, b)
  {
    if b == 0 {
      AndZero(v / 2, 7);
    } else {
      ShiftThenMaskIsBit(v / 2, b - 1);
    }
  }

  /** RES b,r: `v & ~(1 << b)` clears bit `b` and keeps every other bit. */
  function ResetBit(v: byte, b: nat): (r: byte)
    requires b < 8
    ensures forall j | 0 <= j < 8 :: Bit(r, j) == if j == b then 0 else Bit(v, j)
  {
    ClearBitEverywhere(v, b);
    And8(v, Not8(Pow2(b)))
  }

  /** SET b,r: `v | (1 << b)` sets bit `b` and keeps every other bit. */
  function SetBit(v: byte, b: nat): (r: byte)
    requires b < 8
    ensures forall j | 0 <= j < 8 :: Bit(r, j) == if j == b then 1 else Bit(v, j)
  {
    SetBitEverywhere(v, b);
    Or8(v, Pow2(b))
  }

  lemma ClearBitEverywhere(v: byte, b: nat)
    requires b < 8
    ensures Pow2(b) < 0x100
    ensures forall j | 0 <= j < 8 :: Bit(And8(v, Not8(Pow2(b))), j) == if j == b then 0 else Bit(v, j)
  {
    PowBits(b, 0);
    forall j | 0 <= j < 8 ensures Bit(And8(v, Not8(Pow2(b))), j) == if j == b then 0 else Bit(v, j) {
      ClearBitAt(v, b, j);
    }
  }

  lemma SetBitEverywhere(v: byte, b: nat)
    requires b < 8
    ensures Pow2(b) < 0x100
    ensures forall j | 0 <= j < 8 :: Bit(Or8(v, Pow2(b)), j) == if j == b then 1 else Bit(v, j)
  {
    PowBits(b, 0);
    forall j | 0 <= j < 8 ensures Bit(Or8(v, Pow2(b)), j) == if j == b then 1 else Bit(v, j) {
      SetBitAt(v, b, j);
    }
  }

  /** Setting a bit and resetting it again leaves the byte as it was when the bit was clear. */
  lemma SetThenResetBit(v: byte, b: nat)
    requires b < 8 && Bit(v, b) == 0
    ensures ResetBit(SetBit(v, b), b) == v
  {
    var w := ResetBit(SetBit(v, b), b);
    assert forall j | 0 <= j < 8 :: Bit(w, j) == Bit(v, j);
    BitsDetermine(w, v, 8);
  }

  // ---------------------------------------------------------------------
  // The handler-level functions against the reference semantics
  // ---------------------------------------------------------------------

  /** ADD A,r agrees with the reference except for Z, which differs exactly when the sum is 0x100. */
  lemma AddRegisterAgainstReference(a: byte, v: byte, flags: Flags)
    ensures var r, ref := AddRegister(a, v, flags), AddWithCarry(a, v, 0, flags);
            r.value == ref.value && r.flags.(zero := 0) == ref.flags.(zero := 0)
            && (r.flags.zero == ref.flags.zero <==> a + v != 0x100)
  {
  }

  /** 0xFF + 0xFF gives 0xFE with H and C set; 0x80 + 0x80 gives 0 with Z clear. */
  lemma AddRegisterExamples(flags: Flags)
    ensures AddRegister(0xFF, 0xFF, flags) == AluResult(0xFE, Flags(0, 0, 1, 1))
    ensures AddRegister(0x80, 0x80, flags) == AluResult(0x00, Flags(0, 0, 0, 1))
    ensures AddWithCarry(0x80, 0x80, 0, flags) == AluResult(0x00, Flags(1, 0, 0, 1))
  {
  }

  /** ADD A,n: 0x0F + 0x01 carries out of bit 3, but H is computed clear. */
  lemma AddImmediateHalfCarryExample(flags: Flags)
    ensures AddImmediate(0x0F, 0x01, flags).flags.halfCarry == 0
    ensures AddWithCarry(0x0F, 0x01, 0, flags).flags.halfCarry == 1
  {
  }

  /** ADC A,r: 0x01 + 0x01 with C clear does not carry out of bit 3, but H is computed as 3. */
  lemma AddCarryRegisterHalfCarryExample(flags: Flags)
    requires flags.carry == 0
    ensures AddCarryRegister(0x01, 0x01, flags).flags.halfCarry == 3
    ensures AddWithCarry(0x01, 0x01, 0, flags).flags.halfCarry == 0
  {
  }

  /** ADC A,(HL) with a carry of 0 or 1 agrees with the reference except for Z on a sum of 0x100. */
  lemma AddCarryMemoryAgainstReference(a: byte, v: byte, flags: Flags)
    requires flags.carry < 2
    ensures var r, ref := AddCarryMemory(a, v, flags), AddWithCarry(a, v, flags.carry, flags);
            r.value == ref.value && r.flags.(zero := 0) == ref.flags.(zero := 0)
            && (r.flags.zero == ref.flags.zero <==> a + v + flags.carry != 0x100)
  {
  }

  /** SBC A,(HL) and SBC A,n with a borrow of 0 or 1 agree with the reference except for Z on a difference of -0x100. */
  lemma SubtractCarryMemoryAgainstReference(a: byte, v: byte, flags: Flags)
    requires flags.carry < 2
    ensures var r, ref := SubtractCarryMemory(a, v, flags), SubWithBorrow(a, v, flags.carry, flags);
            r.value == ref.value && r.flags.(zero := 0) == ref.flags.(zero := 0)
            && (r.flags.zero == ref.flags.zero <==> a - v - flags.carry != -0x100)
  {
  }

  /** SBC A,r: 0x05 - 0x05 with C set borrows, but C is computed clear. */
  lemma SubtractCarryRegisterExample(flags: Flags)
    requires flags.carry == 1
    ensures SubtractCarryRegister(0x05, 0x05, flags).flags.carry == 0
    ensures SubWithBorrow(0x05, 0x05, 1, flags).flags.carry == 1
  {
  }

  /** CP (HL): Z as documented, but 0x00 - 0x01 borrows with C clear and 0x21 - 0x01 sets H without a nibble borrow. */
  lemma CompareMemoryAgainstReference(a: byte, v: byte, flags: Flags)
    ensures CompareMemory(a, v, flags).zero == SubWithBorrow(a, v, 0, flags).flags.zero
    ensures CompareMemory(0x00, 0x01, flags).carry == 0 && SubWithBorrow(0x00, 0x01, 0, flags).flags.carry == 1
    ensures CompareMemory(0x21, 0x01, flags).halfCarry == 1 && SubWithBorrow(0x21, 0x01, 0, flags).flags.halfCarry == 0
  {
  }

  /** INC: 0x10 + 1 does not carry out of bit 3, but H is computed set. */
  lemma IncrementExample(flags: Flags)
    ensures Increment(0x10, flags).flags.halfCarry == 1
    ensures IncrementReference(0x10, flags).flags.halfCarry == 0
  {
  }

  /**
   * For every byte and flag state INC as written agrees with the reference
   * in the value, Z, N and C.  H agrees exactly when the new byte is 0x01..0x0F
   * or a nonzero multiple of 0x10; it differs when 0xFF wraps to 0 and
   * whenever the byte above 0x0F has a nonzero low nibble.
   */
  lemma IncrementAgainstReference(v: byte, flags: Flags)
    ensures Increment(v, flags).value == IncrementReference(v, flags).value
    ensures Increment(v, flags).flags.(halfCarry := 0) == IncrementReference(v, flags).flags.(halfCarry := 0)
    ensures Increment(v, flags).flags.halfCarry == IncrementReference(v, flags).flags.halfCarry
            <==> (1 <= v + 1 <= 0x0F || (0x10 <= v + 1 <= 0xFF && (v + 1) % 16 == 0))
  {
  }

  /** CCF on a set carry of 1 leaves it set (14). */
  lemma ComplementCarryExample(flags: Flags)
    requires flags.carry == 1
    ensures ComplementCarry(flags).carry == 14
    ensures ComplementCarryReference(flags).carry == 0
  {
  }

  /** XOR A,A clears A and sets Z. */
  lemma XorSelfClears(a: byte, flags: Flags)
    ensures Xor(a, a, flags) == AluResult(0, Flags(1, 0, 0, 0))
  {
  }

  /** 0x1234 + 0xABCD = 0xBE01 with neither carry. */
  lemma AddWordExample(flags: Flags)
    ensures AddWord(0x1234, 0xABCD, flags) == Alu16Result(0xBE01, flags.(halfCarry := 0, carry := 0))
  {
  }
}
