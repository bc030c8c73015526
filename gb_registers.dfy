/**
 * The Game Boy register file and the emulation state that the instruction
 * handlers change (`GB_Registers.c`, the `GB_Registers` record of
 * `GB_Registers.h` and the emulation context that holds registers, memory,
 * the interrupt master enable and the parsed cartridge header).
 *
 * The eight one-byte registers are one sequence indexed by the offsets of
 * `GbRegisterMap`; pair `k` (BC, DE, HL, AF) is bytes `2k` (low) and `2k+1`
 * (high).  The four flags are the unsigned bit-fields ZERO_FLAG, N_FLAG,
 * H_CARRY_FLAG and CARRY_FLAG, whose declared widths are 7, 6, 5 and 4 bits;
 * each holds the number last stored in it, truncated to its width, and a flag
 * counts as set when that number is not zero.
 */
module GbRegisters {
  import opened Bits
  import opened Wrappers
  import opened GbRegisterMap

  type RegisterFile = s: seq<byte> | |s| == 8 witness [0, 0, 0, 0, 0, 0, 0, 0]

  /** Offset of F in the register file: the low byte of the AF pair. */
  const FOffset: nat := 6

  type ZeroField = x: int | 0 <= x < 0x80
  type NField = x: int | 0 <= x < 0x40
  type HField = x: int | 0 <= x < 0x20
  type CField = x: int | 0 <= x < 0x10

  datatype Flags = Flags(zero: ZeroField, n: NField, halfCarry: HField, carry: CField)

  /** The value C gives a comparison or a logical operator: 1 or 0. */
  function FromBool(b: bool): (r: nat)
    ensures r < 2 && (r == 1 <==> b)
  {
    if b then 1 else 0
  }

  datatype Registers = Registers(file: RegisterFile, pc: word, sp: word, instruction: word, flags: Flags)

  // Pair indices as the 2-bit `rr` field of an opcode names them
  const PairBc: nat := 0
  const PairDe: nat := 1
  const PairHl: nat := 2
  const PairAf: nat := 3

  /** The little-endian 16-bit view of bytes `2k` and `2k+1`. */
  function Pair(file: RegisterFile, k: nat): (r: word)
    requires k < 4
    ensures Lsb(r) == file[2 * k] && Msb(r) == file[2 * k + 1]
  {
    U8ToU16(file[2 * k], file[2 * k + 1])
  }

  /** Writing a 16-bit value through pair `k`. */
  function WithPair(file: RegisterFile, k: nat, v: word): (r: RegisterFile)
    requires k < 4
    ensures Pair(r, k) == v
    ensures forall i | 0 <= i < 8 && i / 2 != k :: r[i] == file[i]
  {
    U8ToU16Inverse(v);
    file[2 * k := Lsb(v)][2 * k + 1 := Msb(v)]
  }

  /**
   * Writing the high register of a pair changes only the upper byte of the
   * pair, and reading it back is the pair shifted right by eight (B is BC >> 8,
   * D is DE >> 8, H is HL >> 8, A is AF >> 8).
   */
  lemma HighRegisterIsUpperByte(file: RegisterFile, k: nat, v: byte)
    requires k < 4
    ensures file[2 * k + 1] == Pair(file, k) / 0x100
    ensures Pair(file[2 * k + 1 := v], k) == Lsb(Pair(file, k)) + v * 0x100
    ensures forall j | 0 <= j < 4 && j != k :: Pair(file[2 * k + 1 := v], j) == Pair(file, j)
  {
  }

  /** Register index 3 of a 16-bit instruction means SP or AF. */
  datatype Reg16Mode = ModeSp | ModeAf

  /** The 16-bit register an `rr` field names. */
  function GetReg16(regs: Registers, rr: nat, mode: Reg16Mode): word
    requires rr < 4
  {
    if rr == 3 && mode == ModeSp then regs.sp else Pair(regs.file, rr)
  }

  /** Writing the 16-bit register an `rr` field names; nothing else changes. */
  function SetReg16(regs: Registers, rr: nat, v: word, mode: Reg16Mode): (r: Registers)
    requires rr < 4
    ensures GetReg16(r, rr, mode) == v
    ensures r.pc == regs.pc && r.instruction == regs.instruction && r.flags == regs.flags
    ensures r.sp == if rr == 3 && mode == ModeSp then v else regs.sp
    ensures forall j | 0 <= j < 4 && j != rr :: GetReg16(r, j, mode) == GetReg16(regs, j, mode)
    ensures forall i | 0 <= i < 8 && i / 2 != rr :: r.file[i] == regs.file[i]
  {
    if rr == 3 && mode == ModeSp then regs.(sp := v) else regs.(file := WithPair(regs.file, rr, v))
  }

  /** `x << n` truncated to eight bits; shifting by eight or more leaves nothing. */
  function ShiftLeft8(x: byte, n: nat): byte
  {
    if n >= 8 then 0 else (x * Pow2(n)) % 0x100
  }

  /** `x >> n`: `n` halvings. */
  function ShiftRight(x: nat, n: nat): (r: nat)
    ensures r <= x
  {
    if n == 0 then x else ShiftRight(x / 2, n - 1)
  }

  /** The F byte after `GB_SetFlag(flag, value)`: `F | (uint8_t)(flag << value)`. */
  function SetFlagByte(f: byte, flag: byte, value: byte): byte
  {
    Or8(ShiftLeft8(flag, value), f)
  }

  /** `GB_SetFlag` only adds bits to F: a flag once set is never cleared by it. */
  lemma SetFlagNeverClears(f: byte, flag: byte, value: byte, k: nat)
    requires k < 8
    ensures Bit(f, k) == 1 ==> Bit(SetFlagByte(f, flag, value), k) == 1
  {
    OrKeepsBits(ShiftLeft8(flag, value), f, k);
  }

  /**
   * `GB_GetFlag` returns `F >> flag` without masking, so it equals the flag's
   * bit exactly when every bit of F above it is clear.
   */
  lemma {:induction false} GetFlagIsBitIffHigherClear(f: nat, flag: nat)
    ensures ShiftRight(f, flag) == Bit(f, flag) <==> f < Pow2(flag + 1)
  {
    if flag > 0 {
      GetFlagIsBitIffHigherClear(f / 2, flag - 1);
    }
  }

  /** The title, manufacturer code and new licensee code sizes of the header record. */
  const TitleSize: nat := 16
  const ManufacturerCodeSize: nat := 4
  const NewLicenseeCodeSize: nat := 2

  /** The cartridge header fields extracted by `GB_ParseRom`. */
  datatype RomHeader = RomHeader(
    entryPoint: word,
    title: seq<byte>,
    gbcFlag: byte,
    manufacturerCode: seq<byte>,
    cgbFlag: byte,
    newLicenseeCode: seq<byte>,
    sgbFlag: byte,
    cartridgeType: byte,
    romSize: byte,
    ramSize: byte,
    destinationCode: byte,
    oldLicenseeCode: byte,
    maskRomVersion: byte,
    headerChecksum: byte,
    globalChecksum: word)

  const MemorySize: nat := 0x10000

  /** The emulation context: registers, the flat 64 KiB bus, IME and the header. */
  class EmulationState {
    var registers: Registers
    const memory: array<byte>
    var ime: bool
    var header: Option<RomHeader>

    ghost predicate Valid()
      reads this
    {
      memory.Length == MemorySize
    }

    constructor (regs: Registers, mem: array<byte>)
      requires mem.Length == MemorySize
      ensures Valid() && registers == regs && memory == mem && !ime && header == None
    {
      registers := regs;
      memory := mem;
      ime := false;
      header := None;
    }

    /** `GB_GetReg8`: the byte at offset `r` of the register file. */
    function GetReg8(r: nat): (value: byte)
      reads this
      requires r < 8
      ensures value == if r % 2 == 0 then Lsb(Pair(registers.file, r / 2)) else Msb(Pair(registers.file, r / 2))
    {
      registers.file[r]
    }

    /** `GB_SetReg8`: store `value` at offset `r`; every other byte and register keeps its value. */
    method SetReg8(r: nat, value: byte)
      requires r < 8
      modifies this
      ensures registers == old(registers).(file := old(registers.file)[r := value])
      ensures GetReg8(r) == value
      ensures forall i | 0 <= i < 8 && i != r :: GetReg8(i) == old(GetReg8(i))
      ensures ime == old(ime) && header == old(header)
    {
      registers := registers.(file := registers.file[r := value]);
    }

    /** `GB_GetFlag`: F shifted right by `flag`. */
    function GetFlag(flag: nat): (r: byte)
      reads this
      ensures r <= registers.file[FOffset]
    {
      ShiftRight(registers.file[FOffset], flag)
    }

    /** `GB_SetFlag`: F := F | (flag << value); only the F byte changes. */
    method SetFlag(flag: byte, value: byte)
      modifies this
      ensures registers == old(registers).(file := old(registers.file)[FOffset := SetFlagByte(old(registers.file[FOffset]), flag, value)])
      ensures forall k | 0 <= k < 8 :: Bit(old(registers.file[FOffset]), k) == 1 ==> Bit(registers.file[FOffset], k) == 1
      ensures forall i | 0 <= i < 8 && i != FOffset :: GetReg8(i) == old(GetReg8(i))
      ensures ime == old(ime) && header == old(header)
    {
      var current := GetReg8(FOffset);
      SetReg8(FOffset, SetFlagByte(current, flag, value));
      forall k | 0 <= k < 8
        ensures Bit(current, k) == 1 ==> Bit(registers.file[FOffset], k) == 1
      {
        SetFlagNeverClears(current, flag, value, k);
      }
    }
  }
}
