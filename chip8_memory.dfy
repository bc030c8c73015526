/**
 * The CHIP-8 machine state of `CC8_Memory.h`: 0xFFF bytes of RAM, fifteen
 * V registers, the two timers, I, PC, an 8-bit stack pointer over sixteen
 * 16-bit slots, a 64x32 frame buffer, the keyboard byte and the diagnostic
 * INSTRUCTION word.
 *
 * RAM, the V file and the frame buffer hold `uint8_t` cells; they are `bv8`
 * here because opcodes are assembled from RAM bytes with shifts and `|`.
 * Timers, SP and the keyboard are `byte`, PC and I are `word`.
 */
module Chip8Memory {
  import opened Bits

  /** `CHIP_8_MAX_RAM`: the number of RAM cells, so the last address is 0xFFE. */
  const MaxRam: nat := 0xFFF
  /** `CHIP_8_V_REGISTERS_COUNT`: fifteen cells, V0 to VE. */
  const VRegistersCount: nat := 0x0F
  const VramWidth: nat := 64
  const VramHeight: nat := 32
  /** `CHIP_8_VRAM_SIZE`, the product of the two dimensions. */
  const VramSize: nat := VramWidth * VramHeight
  /** The number of `STACK` slots. */
  const StackSize: nat := 16
  /** `CC8_INSTRUCTION_SET_LENGHT`: the declared capacity of the dispatch table. */
  const InstructionSetLength: nat := 33

  /** Where the program image starts (`CC8_BOOT_ADDR_START`). */
  const BootAddress: nat := 0x200

  class Chip8Context {
    const ram: array<bv8>
    const v: array<bv8>
    var sound: byte
    var delay: byte
    var i: word
    var pc: word
    var sp: byte
    const stack: array<word>
    const vram: array<bv8>
    var keyboard: byte
    var instruction: bv16

    /** The arrays have the sizes the structure declares. */
    ghost predicate Valid()
      reads this
    {
      ram.Length == MaxRam && v.Length == VRegistersCount
      && stack.Length == StackSize && vram.Length == VramSize
    }

    /** A zeroed context, as a host would hand one over. */
    constructor ()
      ensures Valid()
      ensures fresh(ram) && fresh(v) && fresh(stack) && fresh(vram)
      ensures forall a | 0 <= a < MaxRam :: ram[a] == 0
      ensures sound == 0 && delay == 0 && i == 0 && pc == 0 && sp == 0 && keyboard == 0 && instruction == 0
    {
      ram := new bv8[MaxRam](_ => 0);
      v := new bv8[VRegistersCount](_ => 0);
      stack := new word[StackSize](_ => 0);
      vram := new bv8[VramSize](_ => 0);
      sound, delay, i, pc, sp, keyboard, instruction := 0, 0, 0, 0, 0, 0, 0;
    }
  }

  /** A RAM access at `addr` stays inside the structure's RAM. */
  predicate InRam(addr: int)
  {
    0 <= addr < MaxRam
  }

  /**
   * A valid context has 0xFFF RAM cells, fifteen V cells, sixteen stack
   * slots and a 64 * 32 = 2048-cell frame buffer.
   */
  lemma ContextSizes(ctx: Chip8Context)
    requires ctx.Valid()
    ensures ctx.ram.Length == 0xFFF && ctx.v.Length == 15
    ensures ctx.stack.Length == 16 && ctx.vram.Length == 2048
  {
  }

  /**
   * An image of `n` bytes loaded at 0x200 stays inside RAM exactly when
   * `n` is at most 0xDFF; one byte more writes past the last cell 0xFFE.
   */
  lemma ProgramFits(n: nat)
    ensures (forall a | BootAddress <= a < BootAddress + n :: InRam(a)) <==> n <= 0xDFF
  {
    if n > 0xDFF {
      assert !InRam(BootAddress + 0xDFF);
    }
  }

  /** Reading the two opcode bytes at PC and PC + 1 stays inside RAM exactly when PC <= 0xFFD. */
  lemma FetchFits(pc: word)
    ensures InRam(pc) && InRam(pc + 1) <==> pc <= 0xFFD
  {
  }

  /**
   * The 8-bit stack pointer of a valid context indexes a `STACK` slot only
   * while it is at most 15; the values 16..255 it can hold lie past the slots.
   */
  lemma StackPointerInRange(ctx: Chip8Context)
    requires ctx.Valid()
    ensures ctx.sp < ctx.stack.Length <==> ctx.sp <= 15
  {
  }
}
