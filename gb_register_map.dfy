/**
 * The Game Boy register-file offsets, flag positions, hardware-register
 * addresses and memory-map ranges of `GB_Registers.h`.  The ranges follow the
 * memory map of the Pan Docs: sixteen-bit addresses split into eleven
 * consecutive ranges, with the interrupt-enable register alone at 0xFFFF.
 */
module GbRegisterMap {
  import opened Bits
  import opened Wrappers

  // Byte offsets into the register file.  The low byte of each pair comes
  // first, so the high register of a pair (B, D, H, A) sits at the odd offset.
  const OffsetB: nat := 1
  const OffsetC: nat := 0
  const OffsetD: nat := 3
  const OffsetE: nat := 2
  const OffsetH: nat := 5
  const OffsetL: nat := 4
  const OffsetHlIndirect: nat := 6
  const OffsetA: nat := 7

  // Flag positions
  const ZeroFlag: nat := 7
  const NFlag: nat := 6
  const HFlag: nat := 5
  const CFlag: nat := 4

  // Hardware registers
  const IeRegister: word := 0xFFFF
  const IfRegister: word := 0xFF0F
  const LcdcRegister: word := 0xFF40
  const LcdStatRegister: word := 0xFF41
  const ScyRegister: word := 0xFF42
  const ScxRegister: word := 0xFF43
  const LyRegister: word := 0xFF44
  const LycRegister: word := 0xFF45
  const DmaRegister: word := 0xFF46
  const BgpRegister: word := 0xFF47
  const Obp0Register: word := 0xFF48
  const Obp1Register: word := 0xFF49
  const WyRegister: word := 0xFF4A
  const WxRegister: word := 0xFF4B
  const HaltRegister: word := 0xFF50

  // Sizes, as declared
  const RomSize: nat := 0x4000
  const VramSize: nat := 0x2000
  const EramSize: nat := 0x2000
  const WramSize: nat := 0x2000
  const Wram2Size: nat := 0x2000
  const IoRamSize: nat := 0x7F
  const HramSize: nat := 0x7E

  /** The memory-map ranges, in the order of their enumeration. */
  datatype MemoryMapRange =
    | Bank00 | BankNn | Vram | ExternalRam | WorkRamBank1 | WorkRamBank2
    | EchoRam | Oam | NotUsable | Io | HighRam

  /** The position of a range in its enumeration. */
  function Ordinal(r: MemoryMapRange): nat
  {
    match r
    case Bank00 => 0
    case BankNn => 1
    case Vram => 2
    case ExternalRam => 3
    case WorkRamBank1 => 4
    case WorkRamBank2 => 5
    case EchoRam => 6
    case Oam => 7
    case NotUsable => 8
    case Io => 9
    case HighRam => 10
  }

  function RangeStart(r: MemoryMapRange): word
  {
    match r
    case Bank00 => 0x0000
    case BankNn => 0x4000
    case Vram => 0x8000
    case ExternalRam => 0xA000
    case WorkRamBank1 => 0xC000
    case WorkRamBank2 => 0xD000
    case EchoRam => 0xE000
    case Oam => 0xFE00
    case NotUsable => 0xFEA0
    case Io => 0xFF00
    case HighRam => 0xFF80
  }

  /** The last address of a range (the `_END` constants are inclusive). */
  function RangeEnd(r: MemoryMapRange): word
  {
    match r
    case Bank00 => 0x3FFF
    case BankNn => 0x7FFF
    case Vram => 0x9FFF
    case ExternalRam => 0xBFFF
    case WorkRamBank1 => 0xCFFF
    case WorkRamBank2 => 0xDFFF
    case EchoRam => 0xFDFF
    case Oam => 0xFE9F
    case NotUsable => 0xFEFF
    case Io => 0xFF7F
    case HighRam => 0xFFFE
  }

  predicate InRange(r: MemoryMapRange, addr: word)
  {
    RangeStart(r) <= addr <= RangeEnd(r)
  }

  function RangeLength(r: MemoryMapRange): nat
  {
    RangeEnd(r) - RangeStart(r) + 1
  }

  /**
   * The range an address belongs to; none for 0xFFFF, the interrupt-enable
   * register.  Every other address lies in exactly one range.
   */
  function RegionOf(addr: word): (r: Option<MemoryMapRange>)
    ensures r.None? <==> addr == IeRegister
    ensures forall rg: MemoryMapRange :: InRange(rg, addr) <==> r == Some(rg)
  {
    if addr < 0x4000 then Some(Bank00)
    else if addr < 0x8000 then Some(BankNn)
    else if addr < 0xA000 then Some(Vram)
    else if addr < 0xC000 then Some(ExternalRam)
    else if addr < 0xD000 then Some(WorkRamBank1)
    else if addr < 0xE000 then Some(WorkRamBank2)
    else if addr < 0xFE00 then Some(EchoRam)
    else if addr < 0xFEA0 then Some(Oam)
    else if addr < 0xFF00 then Some(NotUsable)
    else if addr < 0xFF80 then Some(Io)
    else if addr < 0xFFFF then Some(HighRam)
    else None
  }

  /**
   * The ranges are listed in address order, each starting right after the
   * previous one ends; the first starts at 0x0000 and the last ends just
   * below the interrupt-enable register.
   */
  lemma RangesContiguous(a: MemoryMapRange, b: MemoryMapRange)
    ensures Ordinal(a) < Ordinal(b) ==> RangeEnd(a) < RangeStart(b)
    ensures Ordinal(b) == Ordinal(a) + 1 ==> RangeStart(b) == RangeEnd(a) + 1
    ensures RangeStart(a) <= RangeEnd(a)
    ensures RangeStart(Bank00) == 0x0000 && RangeEnd(HighRam) + 1 == IeRegister
  {
  }

  /** The three VRAM tile blocks split VRAM without gap or overlap. */
  function VramBlockOf(addr: word): (b: Option<nat>)
    ensures b.Some? <==> InRange(Vram, addr)
    ensures b == Some(0) <==> 0x8000 <= addr <= 0x87FF
    ensures b == Some(1) <==> 0x8800 <= addr <= 0x8FFF
    ensures b == Some(2) <==> 0x9000 <= addr <= 0x9FFF
  {
    if addr < 0x8000 || addr > 0x9FFF then None
    else if addr <= 0x87FF then Some(0)
    else if addr <= 0x8FFF then Some(1)
    else Some(2)
  }

  /**
   * Which declared sizes agree with their ranges: ROM bank 00, VRAM and
   * external RAM do; the two work-RAM sizes are twice their 4 KiB ranges and
   * the I/O and high-RAM sizes are one byte short.
   */
  lemma SizesAgainstRanges()
    ensures RomSize == RangeLength(Bank00) == RangeLength(BankNn)
    ensures VramSize == RangeLength(Vram)
    ensures EramSize == RangeLength(ExternalRam)
    ensures WramSize == 2 * RangeLength(WorkRamBank1)
    ensures Wram2Size == 2 * RangeLength(WorkRamBank2)
    ensures IoRamSize + 1 == RangeLength(Io)
    ensures HramSize + 1 == RangeLength(HighRam)
  {
  }

  /** The eight register offsets are distinct and name every byte of the file. */
  lemma OffsetsCoverFile()
    ensures {OffsetB, OffsetC, OffsetD, OffsetE, OffsetH, OffsetL, OffsetHlIndirect, OffsetA}
      == {0, 1, 2, 3, 4, 5, 6, 7}
    ensures |{OffsetB, OffsetC, OffsetD, OffsetE, OffsetH, OffsetL, OffsetHlIndirect, OffsetA}| == 8
  {
  }

  /** Each high register sits one byte above its low partner. */
  lemma HighRegistersAtOddOffsets()
    ensures OffsetB == OffsetC + 1 && OffsetD == OffsetE + 1 && OffsetH == OffsetL + 1
    ensures OffsetB % 2 == 1 && OffsetD % 2 == 1 && OffsetH % 2 == 1 && OffsetA % 2 == 1
    ensures OffsetC % 2 == 0 && OffsetE % 2 == 0 && OffsetL % 2 == 0
  {
  }

  /** The four flag positions are distinct bits of the upper nibble of F. */
  lemma FlagPositionsInUpperNibble()
    ensures |{ZeroFlag, NFlag, HFlag, CFlag}| == 4
    ensures 4 <= ZeroFlag < 8 && 4 <= NFlag < 8 && 4 <= HFlag < 8 && 4 <= CFlag < 8
  {
  }

  /**
   * `GB_U8_TO_U16`: a word from its low and high bytes.  The macro's body
   * names `lsb` and `msb` rather than its own parameters, so it only works
   * where the caller's variables carry exactly those names; this function is
   * the value it denotes there.
   */
  function U8ToU16(lsb: byte, msb: byte): (r: word)
    ensures Lsb(r) == lsb && Msb(r) == msb
  {
    lsb + msb * 0x100
  }

  /** Splitting a word into its bytes and joining them again is the identity. */
  lemma U8ToU16Inverse(w: word)
    ensures U8ToU16(Lsb(w), Msb(w)) == w
  {
  }

  /** The C expression `lsb | (msb << 8)` adds the bytes: their bits do not overlap. */
  lemma U8ToU16IsBitwiseOr(lsb: byte, msb: byte)
    ensures BitOr(lsb, msb * Pow2(8), 16) == U8ToU16(lsb, msb)
  {
    OrOfShifted(lsb, msb, 8, 16);
  }

  lemma {:induction false} OrOfShifted(x: nat, y: nat, k: nat, width: nat)
    requires k <= width && x < Pow2(k) && y < Pow2(width - k)
    ensures BitOr(x, y * Pow2(k), width) == x + y * Pow2(k)
  {
    if k == 0 {
      OrWithZero(y, width);
    } else {
      var p := Pow2(k - 1);
      assert Pow2(k) == 2 * p;
      var yp := y * p;
      assert y * Pow2(k) == 2 * yp;
      assert x / 2 < p;
      OrOfShifted(x / 2, y, k - 1, width - 1);
      assert BitOr(x, 2 * yp, width) == 2 * BitOr(x / 2, yp, width - 1) + x % 2;
      assert x == 2 * (x / 2) + x % 2;
    }
  }

  lemma {:induction false} OrWithZero(y: nat, width: nat)
    requires y < Pow2(width)
    ensures BitOr(0, y, width) == y
  {
    if width > 0 { OrWithZero(y / 2, width - 1); }
  }
}
