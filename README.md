# MINEMU CPU cores in Dafny

This project models the two 8-bit CPU cores of MINEMU and proves properties of
them. Both cores have the same shape. They fetch an opcode, resolve it through
an ordered mask/match table, decode operand fields, and run a handler. The
handler changes registers and memory and returns a cycle count.

- **Game Boy (SM83) core**
  - `GbRegisterMap` covers `GB_Registers.h`: register byte offsets, flag positions, the memory-map ranges and sizes, and `GB_U8_TO_U16`.
  - `GbRegisters` covers `GB_Registers.c` and the `EmulationState` class (the register record, a flat 64 KiB memory, IME and the parsed header). It also holds the little-endian pair views.
  - `GbAlu` holds the flag arithmetic of the handlers as value functions. Each one is written as the C computes it. Beside it sit reference definitions (`AddWithCarry`, `SubWithBorrow`, `IncrementReference`, `ComplementCarryReference`) and lemmas relating the two.
  - `GbCpu` covers `GB_CPU.c`: every handler is a method on the state, with `GB_ResolveCondition` and the CB sub-dispatch.
  - `GbEmulation` covers `GB_Emulation.c`: the 51-entry first-match table, the fetch, the tick, `GB_Initialize`, `GB_PopulateMemory` and `GB_ParseRom`.
- **CHIP-8 core**
  - `Chip8Memory` covers `CC8_Memory.h`: the `Chip8Context` class and its sizes.
  - `Chip8Emulator` covers `CC8_Emulator.c`:
    - the `InstructionLut` class, whose parallel mask and handler sequences grow with `AddInstruction`;
    - the masked fetch with its next-mask tie-break and whitelist;
    - the operand decode, `CC8_Step` and `CC8_TickEmulation`;
    - the delay timer, the keyboard setter, and the program and font copy loops.

Modelling choices:

- **Context.** The global context pointers become an explicit object passed to every operation. A missing context is a `null` argument.
- **Game Boy flags.** The four flags are bit-field values of widths 7, 6, 5 and 4 in the register record, as the structure declares them. A flag counts as set when it is nonzero. This lets the literal C expressions be modelled as they are:
  - `~CARRY_FLAG` keeps four bits;
  - ADC adds the carry's value;
  - the ADC half-carry keeps a 5-bit sum.

  `GB_SetFlag`/`GB_GetFlag` read and write register byte `GB_F_OFFSET`, which the headers shown do not define. It is taken as 6, so that F is the low byte of AF (pair 3, with A at 7). The model keeps these four flag fields apart from byte 6. In the C structure, the union at `GB_Registers.h:268-279` makes F and the bit-fields share storage; that sharing is not represented.
- **Game Boy register pairs.** Pair `k` is `file[2k] + 256 * file[2k+1]`. A pair field of 3 means SP or AF according to the instruction.
- **Opcode bytes.** Game Boy opcode bytes are `byte` values. CHIP-8 opcodes are `bv16`, RAM cells `bv8`.
- **Invalid-instruction markers.** `GB_INVALID_INSTRUCTION` and `CC8_INVALID_INSTRUCTION` are not defined in the files modelled. Both are taken as 0xFFFF.
- **Cartridge header.** The field sizes of the header structure are not shown. The title, manufacturer code and new licensee code are taken as 16, 4 and 2 bytes, the Pan Docs lengths.
- **CHIP-8 font.** `CC8_FONT_ADDR_START` is 0x000 (`CC8_Emulator.c:8`), so the loop at `CC8_Emulator.c:170-173` writes RAM[0..79].
- **Jump conditions.** `COND_NZ`, `COND_Z`, `COND_NC` and `COND_C` are not defined in the files modelled. They are taken as 0, 1, 2 and 3, the SM83 encoding of the cc field, which `ResolveCondition` relies on.
- **Signed offsets.** `GB_ADD_SP_DD` and `GB_LD_HL_SP_PLUS_DD` cast the offset byte to plain `char` (`GB_CPU.c:1126` and `1140`), whose signedness depends on the platform. The model always reads it as signed (`AddSigned`), as the comments at `GB_CPU.c:1124` and `1137` say dd is.
- **STAT register.** `GB_Initialize` writes `GB_STAT_REGISTER`, which the header shown does not define. It is taken as `GB_LCD_STAT_REGISTER`, 0xFF41.
- **Allocator.** `MNE_New` is taken to return zeroed memory, so every byte `GB_Initialize` does not set is 0.
- **CHIP-8 handlers.** They are not shown, so a table entry's handler is a tag. `Step` returns the tag and the decoded operands instead of calling it.
- **CHIP-8 table build.** The builder's 34 `AddInstruction` calls are grouped into four methods, in source order.

The Game Boy handlers and the CHIP-8 `Step` follow the code as written, flag bugs and misrouting included. The corrected definitions in the Findings table are proved beside them but are not what the handlers run. Where the code and its own comments or design disagree, the model follows the code:

- the CHIP-8 fetch sends every opcode from 0x8000 up, 0xFFFF included, to LD Vx,Vy;
- `CC8_TickEmulation` returns 1 even when the opcode was invalid.

## Model

| member | source | states |
|---|---|---|
| GbRegisterMap.RegionOf | src/GameBoy/include/SOC/GB_Registers.h:110-179 | every address other than IE (0xFFFF) lies in exactly one memory-map range, and IE lies in none |
| GbRegisterMap.RangesContiguous | src/GameBoy/include/SOC/GB_Registers.h:111-152 | the ranges are non-empty, listed in enum order, each starting right after the previous ends, from 0x0000 up to just below IE |
| GbRegisterMap.VramBlockOf | src/GameBoy/include/SOC/GB_Registers.h:117-128 | the three VRAM blocks partition 0x8000-0x9FFF at 0x8800 and 0x9000 |
| GbRegisterMap.SizesAgainstRanges | src/GameBoy/include/SOC/GB_Registers.h:154-164 | ROM, VRAM and ERAM sizes equal their range lengths; the WRAM sizes are twice their ranges, the IO and HRAM sizes one short |
| GbRegisterMap.OffsetsCoverFile | src/GameBoy/include/SOC/GB_Registers.h:67-76 | the eight offsets are distinct and cover 0..7 |
| GbRegisterMap.HighRegistersAtOddOffsets | src/GameBoy/include/SOC/GB_Registers.h:68-76 | B, D, H and A sit at odd bytes, one above their low partner |
| GbRegisterMap.FlagPositionsInUpperNibble | src/GameBoy/include/SOC/GB_Registers.h:78-82 | the four flag positions are distinct bits 4-7 |
| GbRegisterMap.U8ToU16 | src/GameBoy/include/SOC/GB_Registers.h:85 | the word's low byte is `lsb` and its high byte `msb` |
| GbRegisterMap.U8ToU16Inverse | src/GameBoy/include/SOC/GB_Registers.h:85 | splitting a word into bytes and joining them is the identity |
| GbRegisterMap.U8ToU16IsBitwiseOr | src/GameBoy/include/SOC/GB_Registers.h:85 | `lsb \| (msb << 8)` on 16 bits equals the joined word |
| GbRegisters.Pair | src/GameBoy/include/SOC/GB_Registers.h:255-290 | pair k's low byte is byte 2k and its high byte is byte 2k+1 |
| GbRegisters.WithPair | src/GameBoy/include/SOC/GB_Registers.h:281-289 | writing pair k reads back the value and leaves the other pairs' bytes unchanged |
| GbRegisters.HighRegisterIsUpperByte | src/GameBoy/include/SOC/GB_Registers.h:68-76 | B is BC >> 8 (and so on); writing the high register changes only the upper byte of its pair and no other pair |
| GbRegisters.SetReg16 | src/GameBoy/include/SOC/GB_Registers.h:281-294 | writing the 16-bit register an rr field names reads back the value; other pairs, PC, flags and INSTRUCTION unchanged; SP changes only for rr = 3 in SP mode |
| GbRegisters.SetFlagNeverClears | src/GameBoy/src/CPU/GB_Registers.c:15-20 | `GB_SetFlag` can only set bits of F, never clear one |
| GbRegisters.GetFlagIsBitIffHigherClear | src/GameBoy/src/CPU/GB_Registers.c:22-25 | `F >> flag` equals bit `flag` of F exactly when every higher bit of F is clear |
| GbRegisters.EmulationState.GetReg8 | src/GameBoy/src/CPU/GB_Registers.c:9-13 | byte r of the register file is the low byte of pair r/2 for even r and its high byte for odd r |
| GbRegisters.EmulationState.SetReg8 | src/GameBoy/src/CPU/GB_Registers.c:3-13 | the byte at offset r becomes the value, so `GetReg8(r)` returns it; every other byte and register is unchanged |
| GbRegisters.EmulationState.GetFlag | src/GameBoy/src/CPU/GB_Registers.c:22-25 | the result is at most F |
| GbRegisters.EmulationState.SetFlag | src/GameBoy/src/CPU/GB_Registers.c:15-20 | F becomes `F \| ((flag << value) & 0xFF)`: no set bit is cleared and every other byte is unchanged |
| GbAlu.AddWithCarry | src/GameBoy/src/SOC/GB_CPU.c:347-372 | reference 8-bit add: value + 0x100*C is the full sum, Z on the byte, N clear, H the carry out of bit 3 |
| GbAlu.SubWithBorrow | src/GameBoy/src/SOC/GB_CPU.c:504-528 | 8-bit subtract with borrow: the byte wraps, Z iff the byte is 0 (iff A == v without borrow), N set, H and C iff the nibble or byte borrows |
| GbAlu.SubUndoesAdd | src/GameBoy/src/SOC/GB_CPU.c:347-582 | subtracting with the same carry undoes adding, and the other way round |
| GbAlu.BorrowIsCarryBack | src/GameBoy/src/SOC/GB_CPU.c:504-528 | the borrow of a - v is set exactly when adding v back carries |
| GbAlu.AddRegister | src/GameBoy/src/SOC/GB_CPU.c:347-372 | ADD A,r / ADD A,(HL): byte and C from the full sum, H iff the nibbles carry, N clear; Z only for 0 + 0 |
| GbAlu.AddImmediate | src/GameBoy/src/SOC/GB_CPU.c:374-398 | ADD A,n: as ADD A,r, but H tests n's nibble plus the updated A's nibble |
| GbAlu.AddCarryRegister | src/GameBoy/src/SOC/GB_CPU.c:426-475 | ADC A,r / ADC A,n: byte and C from A + v + C; Z on the full sum; H holds the sum of the new A's and v's low nibbles |
| GbAlu.AddCarryMemory | src/GameBoy/src/SOC/GB_CPU.c:477-502 | ADC A,(HL): byte, H and C as documented with C's value as carry-in; Z on the full sum |
| GbAlu.SubtractCarryMemory | src/GameBoy/src/SOC/GB_CPU.c:610-664 | SBC A,n / SBC A,(HL): byte wraps, Z iff A == v + C, H and C iff the nibble or byte borrows, N set |
| GbAlu.SubtractCarryRegister | src/GameBoy/src/SOC/GB_CPU.c:584-608 | SBC A,r: as SBC A,(HL) except that C is set iff A < v, ignoring the borrow-in |
| GbAlu.CompareMemory | src/GameBoy/src/SOC/GB_CPU.c:924-945 | CP (HL): Z iff A == v, N set, H iff the wrapped difference is >= 0x10, C always clear |
| GbAlu.And | src/GameBoy/src/SOC/GB_CPU.c:683-729 | AND n / AND (HL): each result bit is set iff it is set in both operands; Z on the result, H set, N and C clear |
| GbAlu.AndRegister | src/GameBoy/src/SOC/GB_CPU.c:666-681 | AND r: the same value as AND; only Z among the flags changes |
| GbAlu.Xor | src/GameBoy/src/SOC/GB_CPU.c:731-803 | XOR: each result bit is set iff the operand bits differ; Z iff the operands are equal; N, H and C clear |
| GbAlu.Or | src/GameBoy/src/SOC/GB_CPU.c:805-876 | OR: each result bit is set iff it is set in either operand; Z iff both are zero; N, H and C clear |
| GbAlu.Increment | src/GameBoy/src/SOC/GB_CPU.c:947-991 | INC: the byte wraps, Z iff it was 0xFF, N clear, H iff the new byte exceeds 0x0F, C kept |
| GbAlu.IncrementReference | src/GameBoy/src/SOC/GB_CPU.c:947-967 | INC as documented: the reference add of 1 with C kept |
| GbAlu.Decrement | src/GameBoy/src/SOC/GB_CPU.c:993-1037 | DEC: the reference subtract of 1 (byte wraps, Z, N set, H on a nibble borrow), C kept |
| GbAlu.IncrementDecrementInverse | src/GameBoy/src/SOC/GB_CPU.c:947-1037 | INC undoes DEC and DEC undoes INC on the byte |
| GbAlu.Complement | src/GameBoy/src/SOC/GB_CPU.c:1050-1064 | CPL: every bit of A flips (A' = 0xFF - A), N and H set, Z and C kept |
| GbAlu.ComplementTwice | src/GameBoy/src/SOC/GB_CPU.c:1050-1064 | CPL twice restores A |
| GbAlu.ComplementCarry | src/GameBoy/src/SOC/GB_CPU.c:1378-1391 | CCF as written: C becomes 0x0F - C, so it is clear only when C was 0x0F; N and H clear, Z kept |
| GbAlu.ComplementCarryReference | src/GameBoy/src/SOC/GB_CPU.c:1378-1391 | CCF as documented: whether C is set flips; N and H clear, Z kept |
| GbAlu.SetCarry | src/GameBoy/src/SOC/GB_CPU.c:1393-1407 | SCF: C set, N and H clear, Z kept |
| GbAlu.AddWord | src/GameBoy/src/SOC/GB_CPU.c:1067-1092 | ADD HL,rr: value + 0x10000*C is the full sum, H iff the low 12 bits carry, Z and N kept |
| GbAlu.Inc16 | src/GameBoy/src/SOC/GB_CPU.c:1094-1105 | `uint16_t` increment: 0xFFFF wraps to 0 |
| GbAlu.Dec16 | src/GameBoy/src/SOC/GB_CPU.c:1107-1118 | `uint16_t` decrement: 0 wraps to 0xFFFF |
| GbAlu.Inc16Dec16Inverse | src/GameBoy/src/SOC/GB_CPU.c:1094-1118 | the 16-bit increment and decrement undo each other |
| GbAlu.AddSigned | src/GameBoy/src/SOC/GB_CPU.c:1120-1147 | the word plus the signed byte, modulo 0x10000 |
| GbAlu.RotateLeftCircularA | src/GameBoy/src/SOC/GB_CPU.c:1150-1161 | RLCA as written: A' is A shifted left by 1 + C (the C field's value), truncated to a byte, so bit 0 is never set; 2A mod 0x100 when C is 0; the flags are kept |
| GbAlu.LeftCircularShiftsByCarryPlusOne | src/GameBoy/src/SOC/GB_CPU.c:1156 | with C = 1 RLCA gives 4A mod 0x100, and from C = 7 on it gives 0 |
| GbAlu.RotateLeftA | src/GameBoy/src/SOC/GB_CPU.c:1163-1178 | RLA: A' + 0x100*C' = 2A; Z and H clear, N kept |
| GbAlu.RotateRightCircularA | src/GameBoy/src/SOC/GB_CPU.c:1180-1195 | RRCA as written: A' is A shifted right by 1 + C (the C field's value), so A' <= A/2, equal to A/2 when C is 0; Z, H and C clear |
| GbAlu.RightCircularShiftsByCarryPlusOne | src/GameBoy/src/SOC/GB_CPU.c:1187 | with C = 1 RRCA gives A/4, and from C = 7 on it gives 0 |
| GbAlu.RotateRightA | src/GameBoy/src/SOC/GB_CPU.c:1197-1213 | RRA: A' = A/2 (bit 0 is dropped); Z, H and C clear |
| GbAlu.RotateLeft | src/GameBoy/src/SOC/GB_CPU.c:1230-1250 | RL r: bit 7 goes to C; for every value of the 4-bit C field, bit k of A' is bit k of C or-ed with bit k-1 of v; with a carry of 0 or 1, A' + 0x100*bit7 = 2v + C; Z on the result, N and H clear |
| GbAlu.RotateLeftWideCarryExample | src/GameBoy/src/SOC/GB_CPU.c:1237-1240 | with C = 14, as CCF leaves it, RL of 0 gives 0x0E with Z clear |
| GbAlu.TestBit | src/GameBoy/src/SOC/GB_CPU.c:1326-1341 | BIT b,r: Z iff bit b is clear, C cleared, N and H kept |
| GbAlu.ResetBit | src/GameBoy/src/SOC/GB_CPU.c:1343-1358 | RES: bit b becomes 0 and every other bit is kept |
| GbAlu.SetBit | src/GameBoy/src/SOC/GB_CPU.c:1360-1375 | SET: bit b becomes 1 and every other bit is kept |
| GbAlu.SetThenResetBit | src/GameBoy/src/SOC/GB_CPU.c:1343-1375 | on a clear bit, RES undoes SET |
| GbAlu.AddRegisterAgainstReference | src/GameBoy/src/SOC/GB_CPU.c:347-424 | ADD A,r agrees with the reference add except Z, which differs exactly when A + v = 0x100 |
| GbAlu.AddRegisterExamples | src/Tests/GameBoy_TEST.cpp:222-226 | 0xFF + 0xFF gives 0xFE with H and C set; 0x80 + 0x80 gives 0 with Z clear, where the reference sets Z |
| GbAlu.AddImmediateHalfCarryExample | src/GameBoy/src/SOC/GB_CPU.c:388-393 | ADD A,n: 0x0F + 0x01 carries out of bit 3, but H is computed clear |
| GbAlu.AddCarryRegisterHalfCarryExample | src/GameBoy/src/SOC/GB_CPU.c:445 | ADC A,r: 0x01 + 0x01 with C clear does not carry out of bit 3, but H is computed as 3 |
| GbAlu.AddCarryMemoryAgainstReference | src/GameBoy/src/SOC/GB_CPU.c:477-502 | with a 0/1 carry, ADC A,(HL) agrees with the reference except Z on a sum of 0x100 |
| GbAlu.SubtractCarryMemoryAgainstReference | src/GameBoy/src/SOC/GB_CPU.c:610-664 | with a 0/1 borrow, SBC A,n / SBC A,(HL) agree with the reference except Z on a difference of -0x100 |
| GbAlu.SubtractCarryRegisterExample | src/GameBoy/src/SOC/GB_CPU.c:604 | SBC A,r: 0x05 - 0x05 with C set borrows, but C is computed clear |
| GbAlu.CompareMemoryAgainstReference | src/GameBoy/src/SOC/GB_CPU.c:936-942 | CP (HL) has the reference Z; 0x00 - 0x01 borrows with C clear, and 0x21 - 0x01 sets H without a nibble borrow |
| GbAlu.IncrementAgainstReference | src/GameBoy/src/SOC/GB_CPU.c:947-967 | for every byte INC agrees with the reference in the value, Z, N and C; H agrees exactly when the new byte is 0x01-0x0F or a nonzero multiple of 0x10 |
| GbAlu.IncrementExample | src/GameBoy/src/SOC/GB_CPU.c:964 | INC 0x10 does not carry out of bit 3, but H is computed set |
| GbAlu.ComplementCarryExample | src/GameBoy/src/SOC/GB_CPU.c:1388 | CCF on C = 1 leaves C set (14); the reference clears it |
| GbAlu.XorSelfClears | src/Tests/GameBoy_TEST.cpp:242-243 | XOR A,A gives 0 with Z set and N, H and C clear |
| GbAlu.AddWordExample | src/Tests/GameBoy_TEST.cpp:256-270 | 0x1234 + 0xABCD = 0xBE01 with neither carry |
| GbCpu.SourceField | src/GameBoy/src/SOC/GB_CPU.c:62 | `INSTRUCTION & 0x07` names one of the eight register bytes |
| GbCpu.DestField | src/GameBoy/src/SOC/GB_CPU.c:17-29 | `(INSTRUCTION & 0x38) >> 3` names one of the eight register bytes |
| GbCpu.PairField | src/GameBoy/src/SOC/GB_CPU.c:256-271 | `(INSTRUCTION & 0x30) >> 4` names one of four pairs |
| GbCpu.CondField | src/GameBoy/src/SOC/GB_CPU.c:1494-1521 | `(INSTRUCTION & 0x18) >> 3` is one of the four conditions |
| GbCpu.FieldsAreMasks | src/GameBoy/src/SOC/GB_CPU.c:17-29 | the four field functions equal the C mask-and-shift expressions |
| GbCpu.ResolveCondition | src/GameBoy/src/SOC/GB_CPU.c:1799-1816 | cc 0-3 hold iff NZ, Z, NC, C respectively; any other cc gives 0 |
| GbCpu.ConditionsComplement | src/GameBoy/src/SOC/GB_CPU.c:1799-1816 | NZ holds exactly when Z does not, and NC exactly when C does not |
| GbCpu.ReadImmediate | src/GameBoy/src/SOC/GB_CPU.c:31-42 | `GB_BusRead(ctx, PC++)`: the byte at PC, PC advanced by one with wrap, nothing else changes |
| GbCpu.ReadImmediateWord | src/GameBoy/src/SOC/GB_CPU.c:101-116 | two bytes at PC, low first, joined; PC advanced by two |
| GbCpu.LdRR | src/GameBoy/src/SOC/GB_CPU.c:17-29 | the byte named by bits 5-3 receives the byte named by bits 2-0; nothing else changes; 4 cycles |
| GbCpu.LdRN | src/GameBoy/src/SOC/GB_CPU.c:31-42 | the byte named by bits 5-3 receives memory[PC] and PC advances by exactly 1 |
| GbCpu.LdRHl | src/GameBoy/src/SOC/GB_CPU.c:44-54 | the byte named by bits 5-3 receives memory[HL] |
| GbCpu.LdHlR | src/GameBoy/src/SOC/GB_CPU.c:56-66 | as written: the register named by bits 2-0 is loaded from (HL); memory unchanged |
| GbCpu.LdHlRReference | src/GameBoy/src/SOC/GB_CPU.c:56-66 | as its comment says: memory[HL] receives the register; nothing else changes |
| GbCpu.LdHlN | src/GameBoy/src/SOC/GB_CPU.c:68-79 | memory[HL] receives the byte at PC, PC advances by one; all other memory unchanged |
| GbCpu.LdABc | src/GameBoy/src/SOC/GB_CPU.c:81-89 | A receives memory[BC] |
| GbCpu.LdADe | src/GameBoy/src/SOC/GB_CPU.c:91-99 | A receives memory[DE] |
| GbCpu.LdANn | src/GameBoy/src/SOC/GB_CPU.c:101-116 | A receives memory[nn], nn little-endian at PC; PC advances by two |
| GbCpu.LdBcA | src/GameBoy/src/SOC/GB_CPU.c:118-126 | memory[BC] receives A; registers and all other memory unchanged |
| GbCpu.LdDeA | src/GameBoy/src/SOC/GB_CPU.c:128-137 | memory[DE] receives A; registers and all other memory unchanged |
| GbCpu.LdNnA | src/GameBoy/src/SOC/GB_CPU.c:139-153 | memory[nn] receives A; PC advances by two |
| GbCpu.LdhAN | src/GameBoy/src/SOC/GB_CPU.c:155-169 | A receives memory[0xFF00 + n]; PC advances by one |
| GbCpu.LdhNA | src/GameBoy/src/SOC/GB_CPU.c:171-184 | memory[0xFF00 + n] receives A; PC advances by one |
| GbCpu.LdhAC | src/GameBoy/src/SOC/GB_CPU.c:186-196 | A receives memory[0xFF00 + C] |
| GbCpu.LdhCA | src/GameBoy/src/SOC/GB_CPU.c:199-209 | memory[0xFF00 + C] receives A |
| GbCpu.LdiHlA | src/GameBoy/src/SOC/GB_CPU.c:211-220 | memory[HL] receives A, then HL steps up with 16-bit wrap (0xFFFF to 0) |
| GbCpu.LdiAHl | src/GameBoy/src/SOC/GB_CPU.c:222-231 | A receives memory[HL], then HL steps up with wrap |
| GbCpu.LddHlA | src/GameBoy/src/SOC/GB_CPU.c:233-242 | memory[HL] receives A, then HL steps down with wrap (0 to 0xFFFF) |
| GbCpu.LddAHl | src/GameBoy/src/SOC/GB_CPU.c:244-253 | A receives memory[HL], then HL steps down with wrap |
| GbCpu.LdRrNn | src/GameBoy/src/SOC/GB_CPU.c:256-271 | pair rr (3 = SP) receives the little-endian word at PC; PC advances by two |
| GbCpu.LdNnSp | src/GameBoy/src/SOC/GB_CPU.c:273-296 | SP's low byte goes to nn and its high byte to nn + 1; PC advances by two |
| GbCpu.LdSpHl | src/GameBoy/src/SOC/GB_CPU.c:298-307 | SP receives HL |
| GbCpu.PushRr | src/GameBoy/src/SOC/GB_CPU.c:309-329 | the pair's high byte at SP-1, low byte at SP-2, SP lowered by two; no other memory changes |
| GbCpu.PopRr | src/GameBoy/src/SOC/GB_CPU.c:331-344 | the pair receives memory[SP] \| memory[SP+1] << 8 and SP rises by two |
| GbCpu.PushThenPop | src/Tests/GameBoy_TEST.cpp:150-163 | PUSH rr then POP rr restores the pair and SP |
| GbCpu.AddAR | src/GameBoy/src/SOC/GB_CPU.c:347-372 | A and the flags become `AddRegister` of A and the register |
| GbCpu.AddAN | src/GameBoy/src/SOC/GB_CPU.c:374-398 | A and the flags become `AddImmediate` of A and the byte at PC; PC advances by one |
| GbCpu.AddAHl | src/GameBoy/src/SOC/GB_CPU.c:400-424 | A and the flags become `AddRegister` of A and memory[HL] |
| GbCpu.AdcAR | src/GameBoy/src/SOC/GB_CPU.c:426-449 | A and the flags become `AddCarryRegister` of A and the register |
| GbCpu.AdcAN | src/GameBoy/src/SOC/GB_CPU.c:451-475 | A and the flags become `AddCarryRegister` of A and the byte at PC; PC advances by one |
| GbCpu.AdcAHl | src/GameBoy/src/SOC/GB_CPU.c:477-502 | A and the flags become `AddCarryMemory` of A and memory[HL] |
| GbCpu.SubR | src/GameBoy/src/SOC/GB_CPU.c:504-528 | A and the flags become `SubWithBorrow` of A and the register, without borrow |
| GbCpu.SubN | src/GameBoy/src/SOC/GB_CPU.c:530-554 | A and the flags become `SubWithBorrow` of A and the byte at PC; PC advances by one |
| GbCpu.SubHl | src/GameBoy/src/SOC/GB_CPU.c:556-582 | A and the flags become `SubWithBorrow` of A and memory[HL] |
| GbCpu.SbcAR | src/GameBoy/src/SOC/GB_CPU.c:584-608 | A and the flags become `SubtractCarryRegister` of A and the register |
| GbCpu.SbcAN | src/GameBoy/src/SOC/GB_CPU.c:610-636 | A and the flags become `SubtractCarryMemory` of A and the byte at PC; PC advances by one |
| GbCpu.SbcAHl | src/GameBoy/src/SOC/GB_CPU.c:638-664 | A and the flags become `SubtractCarryMemory` of A and memory[HL] |
| GbCpu.AndR | src/GameBoy/src/SOC/GB_CPU.c:666-681 | A becomes A & r and only Z among the flags changes |
| GbCpu.AndN | src/GameBoy/src/SOC/GB_CPU.c:683-705 | A and the flags become `And` of A and the byte at PC; PC advances by one |
| GbCpu.AndHl | src/GameBoy/src/SOC/GB_CPU.c:707-729 | A and the flags become `And` of A and memory[HL] |
| GbCpu.XorR | src/GameBoy/src/SOC/GB_CPU.c:731-754 | A and the flags become `Xor` of A and the register |
| GbCpu.XorN | src/GameBoy/src/SOC/GB_CPU.c:756-778 | A and the flags become `Xor` of A and the byte at PC; PC advances by one |
| GbCpu.XorHl | src/GameBoy/src/SOC/GB_CPU.c:780-803 | A and the flags become `Xor` of A and memory[HL] |
| GbCpu.OrR | src/GameBoy/src/SOC/GB_CPU.c:805-827 | A and the flags become `Or` of A and the register |
| GbCpu.OrN | src/GameBoy/src/SOC/GB_CPU.c:829-851 | A and the flags become `Or` of A and the byte at PC; PC advances by one |
| GbCpu.OrHl | src/GameBoy/src/SOC/GB_CPU.c:853-876 | A and the flags become `Or` of A and memory[HL] |
| GbCpu.CpR | src/GameBoy/src/SOC/GB_CPU.c:878-898 | the flags of SUB r; A and everything else unchanged |
| GbCpu.CpN | src/GameBoy/src/SOC/GB_CPU.c:900-922 | the flags of SUB n; A unchanged; PC advances by one |
| GbCpu.CpHl | src/GameBoy/src/SOC/GB_CPU.c:924-945 | the flags become `CompareMemory` of A and memory[HL]; A unchanged |
| GbCpu.IncR | src/GameBoy/src/SOC/GB_CPU.c:947-967 | the register named by bits 5-3 and the flags become `Increment` of it |
| GbCpu.IncHl | src/GameBoy/src/SOC/GB_CPU.c:969-991 | memory[HL] and the flags become `Increment` of memory[HL]; no other memory changes |
| GbCpu.DecR | src/GameBoy/src/SOC/GB_CPU.c:993-1013 | the register named by bits 5-3 and the flags become `Decrement` of it |
| GbCpu.DecHl | src/GameBoy/src/SOC/GB_CPU.c:1015-1037 | memory[HL] and the flags become `Decrement` of memory[HL]; no other memory changes |
| GbCpu.Cpl | src/GameBoy/src/SOC/GB_CPU.c:1050-1064 | A and the flags become `Complement` of A |
| GbCpu.AddHlRr | src/GameBoy/src/SOC/GB_CPU.c:1067-1092 | HL and H/C become `AddWord` of HL and pair rr (3 = SP); Z and N kept |
| GbCpu.IncRr | src/GameBoy/src/SOC/GB_CPU.c:1094-1105 | pair rr (3 = SP) increments with wrap; nothing else changes |
| GbCpu.DecRr | src/GameBoy/src/SOC/GB_CPU.c:1107-1118 | pair rr (3 = SP) decrements with wrap; nothing else changes |
| GbCpu.AddSpDd | src/GameBoy/src/SOC/GB_CPU.c:1120-1131 | SP becomes SP plus the signed byte at PC; PC advances by one; flags kept |
| GbCpu.LdHlSpPlusDd | src/GameBoy/src/SOC/GB_CPU.c:1133-1147 | HL becomes SP plus the signed byte at PC; PC advances by one; flags kept |
| GbCpu.Rlca | src/GameBoy/src/SOC/GB_CPU.c:1150-1161 | A becomes `RotateLeftCircularA` of A |
| GbCpu.Rla | src/GameBoy/src/SOC/GB_CPU.c:1163-1178 | A and the flags become `RotateLeftA` of A |
| GbCpu.Rrca | src/GameBoy/src/SOC/GB_CPU.c:1180-1195 | A and the flags become `RotateRightCircularA` of A |
| GbCpu.Rra | src/GameBoy/src/SOC/GB_CPU.c:1197-1213 | A and the flags become `RotateRightA` of A |
| GbCpu.RlR | src/GameBoy/src/SOC/GB_CPU.c:1230-1250 | the register named by bits 2-0 and the flags become `RotateLeft` of it |
| GbCpu.BitIndex | src/GameBoy/src/SOC/GB_CPU.c:1334 | the C expression `INSTRUCTION & 0x38 >> 3`, which parses as `INSTRUCTION & (0x38 >> 3)`: the index is below 8 and equals the operand register field (bits 2-0), not bits 5-3 |
| GbCpu.CbBitNR | src/GameBoy/src/SOC/GB_CPU.c:1326-1341 | the flags become `TestBit` of the operand register at that index |
| GbCpu.CbResNR | src/GameBoy/src/SOC/GB_CPU.c:1343-1358 | exactly one bit of one register byte is cleared; nothing else changes |
| GbCpu.CbSetNR | src/GameBoy/src/SOC/GB_CPU.c:1360-1375 | exactly one bit of one register byte is set; nothing else changes |
| GbCpu.CbOperation | src/GameBoy/src/SOC/GB_CPU.c:1708-1797 | bytes from 0x40 select BIT (0x40-0x7F), RES (0x80-0xBF) or SET (0xC0-0xFF); below, RL is 0x10-0x17; no byte reaches a default branch |
| GbCpu.CbMasks | src/GameBoy/src/SOC/GB_CPU.c:1708-1797 | `cb & 0xC0` and `cb & 0xF8` are the multiples of 0x40 and 8 below cb |
| GbCpu.LogOnly | src/GameBoy/src/SOC/GB_CPU.c:1039-1048 | DAA and the other log-only handlers change nothing and return 1 |
| GbCpu.CbPrefix | src/GameBoy/src/SOC/GB_CPU.c:1708-1797 | the byte at PC becomes INSTRUCTION, PC advances by one, the selected BIT/RES/SET/RL runs on it and the others change nothing; the result is always 1 |
| GbCpu.Ccf | src/GameBoy/src/SOC/GB_CPU.c:1378-1391 | the flags become `ComplementCarry` of the flags; nothing else changes |
| GbCpu.Scf | src/GameBoy/src/SOC/GB_CPU.c:1393-1407 | the flags become `SetCarry` of the flags |
| GbCpu.Nop | src/GameBoy/src/SOC/GB_CPU.c:1409-1416 | nothing changes; 4 cycles |
| GbCpu.Halt | src/GameBoy/src/SOC/GB_CPU.c:1418-1426 | nothing changes; 0 cycles |
| GbCpu.Stop | src/GameBoy/src/SOC/GB_CPU.c:1428-1436 | nothing changes; 0 cycles |
| GbCpu.Di | src/GameBoy/src/SOC/GB_CPU.c:1438-1447 | IME cleared, registers and header unchanged |
| GbCpu.Ei | src/GameBoy/src/SOC/GB_CPU.c:1449-1458 | IME set, registers and header unchanged |
| GbCpu.JpNn | src/GameBoy/src/SOC/GB_CPU.c:1461-1478 | PC becomes the little-endian word at PC |
| GbCpu.JpHl | src/GameBoy/src/SOC/GB_CPU.c:1480-1492 | PC becomes HL |
| GbCpu.JpCcNn | src/GameBoy/src/SOC/GB_CPU.c:1494-1521 | when cc holds PC becomes nn (4 cycles); otherwise nothing changes, PC included (3 cycles) |
| GbCpu.JpCcNnReference | src/GameBoy/src/SOC/GB_CPU.c:1494-1508 | as the pseudo-code says: both operand bytes are read first; when cc holds PC becomes nn (4 cycles), otherwise PC ends past the operands (3 cycles) and nothing else changes |
| GbCpu.JrE | src/GameBoy/src/SOC/GB_CPU.c:1523-1536 | PC, past the offset byte, moves by the signed offset |
| GbCpu.JrCcE | src/GameBoy/src/SOC/GB_CPU.c:1538-1557 | when cc holds PC jumps by the offset; otherwise PC still consumes the offset byte |
| GbCpu.CallNn | src/GameBoy/src/SOC/GB_CPU.c:1559-1585 | the return address PC+2 is pushed (high byte at SP-1, low at SP-2), SP lowered by two, PC := nn |
| GbCpu.CallCcNn | src/GameBoy/src/SOC/GB_CPU.c:1587-1623 | as CALL nn when cc holds; otherwise registers and memory unchanged |
| GbCpu.CallCcNnReference | src/GameBoy/src/SOC/GB_CPU.c:1587-1604 | as the pseudo-code says: both operand bytes are read first; when cc holds it is CALL nn (6 cycles), otherwise PC ends past the operands, memory is unchanged (3 cycles) |
| GbCpu.Ret | src/GameBoy/src/SOC/GB_CPU.c:1625-1638 | PC from memory[SP] (low) and memory[SP+1] (high); SP rises by two |
| GbCpu.RetCc | src/GameBoy/src/SOC/GB_CPU.c:1640-1665 | as RET when cc holds; otherwise nothing changes |
| GbCpu.Reti | src/GameBoy/src/SOC/GB_CPU.c:1667-1685 | as RET, then IME set |
| GbCpu.CallThenRet | src/GameBoy/src/SOC/GB_CPU.c:1559-1638 | CALL nn then RET returns to the address after the operands with SP restored |
| GbEmulation.InstructionAt | src/GameBoy/src/Emulation/GB_Emulation.c:13-104 | the 51 entries of `s_gb_instruction_set` in declaration order; every mask is a nonzero 8-bit value and every match fits in 8 bits |
| GbEmulation.FirstMatch | src/GameBoy/src/Emulation/GB_Emulation.c:279-292 | the entry the fetch is meant to return: one that matches, with no matching entry before it; none exactly when no entry matches |
| GbEmulation.FirstMatchFromIsFirst | src/GameBoy/src/Emulation/GB_Emulation.c:279-292 | the scan returns an entry that matches with no matching entry before it, and none iff no entry matches |
| GbEmulation.FetchInstruction | src/GameBoy/src/Emulation/GB_Emulation.c:279-292 | the loop returns the first entry in declaration order with (opcode & mask) == match, or none |
| GbEmulation.SelectsEntry | src/GameBoy/src/Emulation/GB_Emulation.c:279-292 | an entry that matches with none before it is the one the scan returns |
| GbEmulation.SelectsNothing | src/GameBoy/src/Emulation/GB_Emulation.c:279-292 | when no entry matches the scan returns none |
| GbEmulation.OverlapsResolveInOrder | src/GameBoy/src/Emulation/GB_Emulation.c:18-88 | 0x76 selects LD r,r' (not HALT), 0x08 LD (nn),SP (not ADC A,n), 0x10 SUB n (not STOP), 0x00 the first NOP |
| GbEmulation.JumpUnknown | src/GameBoy/src/Emulation/GB_Emulation.c:93 | JP nn (0xC3) resolves to not-found |
| GbEmulation.ReturnUnknown | src/GameBoy/src/Emulation/GB_Emulation.c:100 | RET (0xC9) resolves to not-found |
| GbEmulation.CallUnknown | src/GameBoy/src/Emulation/GB_Emulation.c:98 | CALL nn (0xCD) resolves to not-found |
| GbEmulation.CbPrefixUnknown | src/GameBoy/src/Emulation/GB_Emulation.c:13-104 | the CB prefix (0xCB) resolves to not-found |
| GbEmulation.MaskOverreach | src/GameBoy/src/Emulation/GB_Emulation.c:32-85 | DEC rr's mask 0xCB also selects 0x3F (CCF); 0x36 goes to LD r,n and 0x86 to ADD A,r |
| GbEmulation.DeadEntries | src/GameBoy/src/Emulation/GB_Emulation.c:69-71 | INC r (0x04) and DEC r (0x05) under mask 0xF8 match no opcode |
| GbEmulation.ShadowingEntries | src/GameBoy/src/Emulation/GB_Emulation.c:18-88 | each shadowed entry's match implies an earlier entry's match |
| GbEmulation.UnreachableEntries | src/GameBoy/src/Emulation/GB_Emulation.c:18-90 | sixteen of the 51 entries are never returned by the fetch |
| GbEmulation.SelectedHandlersNeverStop | src/GameBoy/src/Emulation/GB_Emulation.c:87-88 | every handler the fetch can return has a nonzero cycle count, because HALT and STOP are never selected |
| GbEmulation.CycleCount | src/GameBoy/src/SOC/GB_CPU.c:1409-1436 | the count each handler returns as written: 0 exactly for HALT and STOP, and never more than 8 |
| GbEmulation.Execute | src/GameBoy/src/Emulation/GB_Emulation.c:263-264 | running an entry's handler returns its cycle count and keeps INSTRUCTION and the header |
| GbEmulation.Tick | src/GameBoy/src/Emulation/GB_Emulation.c:252-276 | a known opcode at PC goes to INSTRUCTION and the result is its handler's nonzero count; on an unknown opcode PC advances by one, INSTRUCTION becomes the invalid marker, 0xFF50 becomes 1, the other registers are kept and the result is 0 |
| GbEmulation.TickEmulation | src/GameBoy/src/Emulation/GB_Emulation.c:247-277 | no context gives 0; otherwise a known opcode at PC goes to INSTRUCTION and the result is its handler's nonzero count; on an unknown opcode PC advances by one, INSTRUCTION becomes the invalid marker, 0xFF50 becomes 1, the other registers are kept and the result is 0 |
| GbEmulation.PowerOnValues | src/GameBoy/src/Emulation/GB_Emulation.c:106-130 | IE 0x00, IF 0xE0, LCDC 0x91, STAT 0x81, BGP 0xFC, OBP0 = OBP1 = 0xFF, every other byte 0, SP 0xFFFE, PC 0 |
| GbEmulation.Initialize | src/GameBoy/src/Emulation/GB_Emulation.c:106-130 | a fresh state whose registers and memory are the power-on values; result 0 |
| GbEmulation.PopulateMemory | src/GameBoy/src/Emulation/GB_Emulation.c:215-228 | memory[i] = buffer[i] for i < bytesRead (up to the full 64 KiB), every other byte kept, then the header parsed; registers unchanged |
| GbEmulation.PopulateIndexCounts | src/GameBoy/src/Emulation/GB_Emulation.c:218-224 | the `uint16_t` index after n < 0x10000 passes of the copy loop is n |
| GbEmulation.PopulateIndexPeriodic | src/GameBoy/src/Emulation/GB_Emulation.c:218-224 | every 0x10000 passes the wrapping index returns to the same value |
| GbEmulation.PopulateLoopNeverExits | src/GameBoy/src/Emulation/GB_Emulation.c:218-224 | for 0x10000 bytes or more the loop guard holds after every pass, and after 0x10000 passes the index is back at 0 |
| GbEmulation.StrnCopy | src/GameBoy/src/Emulation/GB_Emulation.c:137-193 | `strncpy`: n bytes, the source up to its first NUL and NULs from there |
| GbEmulation.CopyString | src/GameBoy/src/Emulation/GB_Emulation.c:137-193 | a header string field: `strncpy` of the field and a NUL in its last byte |
| GbEmulation.ParseRom | src/GameBoy/src/Emulation/GB_Emulation.c:137-193 | a header exactly for images of at least 0x150 bytes; entry point little-endian at 0x100, global checksum big-endian at 0x14E; byte fields from 0x143 and 0x146-0x14D; strings NUL-terminated |
| GbEmulation.HeaderWordsByteOrder | src/GameBoy/src/Emulation/GB_Emulation.c:137-193 | the two word fields are the C `\|`/`<<` expressions, reading the same byte pattern in opposite orders |
| GbEmulation.ParseRomReadsHeaderOnly | src/GameBoy/src/Emulation/GB_Emulation.c:137-193 | bytes past 0x150 do not affect the header |
| Chip8Memory.ContextSizes | src/Chip8/include/CC8_Memory.h:5-25 | a valid context has 0xFFF RAM cells, 15 V cells, 16 stack slots and a 64 * 32 = 2048-cell frame buffer |
| Chip8Memory.ProgramFits | src/Chip8/include/CC8_Memory.h:5 | an n-byte image at 0x200 stays in RAM iff n <= 0xDFF |
| Chip8Memory.FetchFits | src/Chip8/src/CC8_Emulator.c:245-246 | both opcode bytes lie in RAM iff PC <= 0xFFD |
| Chip8Memory.StackPointerInRange | src/Chip8/include/CC8_Memory.h:24-25 | a valid context's 8-bit SP indexes its STACK iff SP <= 15 |
| Chip8Emulator.Font | src/Chip8/src/CC8_Emulator.c:19-36 | the font has 80 bytes |
| Chip8Emulator.BuiltMasksAre | src/Chip8/src/CC8_Emulator.c:69-102 | the built masks, slot by slot |
| Chip8Emulator.BuiltTableOverflows | src/Chip8/include/CC8_Memory.h:13 | the build appends 34 entries, one more than the declared capacity 33 |
| Chip8Emulator.BuiltMaskStep | src/Chip8/src/CC8_Emulator.c:69-102 | consecutive built masks strictly increase |
| Chip8Emulator.BuiltMasksDistinct | src/Chip8/src/CC8_Emulator.c:69-102 | the 34 built masks are pairwise distinct |
| Chip8Emulator.HighSlots | src/Chip8/src/CC8_Emulator.c:77-102 | every slot from 9 on holds a mask of at least 0x8000 |
| Chip8Emulator.FetchFromIsFirst | src/Chip8/src/CC8_Emulator.c:46-61 | the scan returns a slot that takes the opcode with none before it, and none iff no slot below 33 does |
| Chip8Emulator.FetchFromFinds | src/Chip8/src/CC8_Emulator.c:46-61 | a slot that takes the opcode with none before it is the one found |
| Chip8Emulator.UnwrittenSlotsSelectNothing | src/Chip8/src/CC8_Emulator.c:46-61 | a slot past the written entries (mask 0) takes no opcode |
| Chip8Emulator.Lookup | src/Chip8/src/CC8_Emulator.c:46-61 | a handler exactly when a slot takes the opcode, and then the handler of that slot |
| Chip8Emulator.InstructionLut.AddInstruction | src/Chip8/src/CC8_Emulator.c:38-43 | the mask and handler are appended at the same index, which advances by one |
| Chip8Emulator.InstructionLut.Build | src/Chip8/src/CC8_Emulator.c:63-105 | the 34 entries are appended in order after whatever the table holds; the index is never reset (storage unbounded, so the writes past slot 32 are not represented) |
| Chip8Emulator.InstructionLut.FetchInstruction | src/Chip8/src/CC8_Emulator.c:46-61 | the loop returns `Lookup` of the table and the opcode |
| Chip8Emulator.LowOpcodes | src/Chip8/src/CC8_Emulator.c:53 | below 0x1000 only CLS (bits of 0x00E0, below 0x00EE) and RET (bits of 0x00EE) are found |
| Chip8Emulator.MiddleOpcodes | src/Chip8/src/CC8_Emulator.c:53 | from 0x1000 to 0x7FFF the slot found is the one whose mask is `opcode & 0xF000` |
| Chip8Emulator.HighOpcodes | src/Chip8/src/CC8_Emulator.c:53 | every opcode from 0x8000 up is taken by slot 9, LD Vx,Vy |
| Chip8Emulator.LaterSlotsUnreachable | src/Chip8/src/CC8_Emulator.c:53 | slots 10 to 33 are never returned |
| Chip8Emulator.DispatchExamples | src/Chip8/src/CC8_Emulator.c:46-102 | 0x6A12 goes to LD Vx,byte, 0x00E0 to CLS, 0x00EE to RET, and 0x0000 to none |
| Chip8Emulator.RebuildKeepsDispatch | src/Chip8/src/CC8_Emulator.c:49 | in the unbounded model, entries appended by a second build never change the dispatch, since the scan stops at 33; in the source those appends write past the 33-slot arrays |
| Chip8Emulator.DecodesOneMask | src/Chip8/src/CC8_Emulator.c:69-102 | two masks that both identify one opcode are equal |
| Chip8Emulator.BuiltSlotsDisjoint | src/Chip8/src/CC8_Emulator.c:69-102 | no opcode is identified by two built slots |
| Chip8Emulator.FamilyDispatchSelectsOwnEntry | src/Chip8/src/CC8_Emulator.c:69-102 | the family dispatch selects slot i for every opcode whose identifying bits are slot i's mask, for all 34 slots |
| Chip8Emulator.ScanMisroutesRegisterOps | src/Chip8/src/CC8_Emulator.c:53 | every built mask from 0x8001 on is sent to slot 9; 0x8A14 runs LD Vx,Vy |
| Chip8Emulator.FamilyDispatchExamples | src/Chip8/src/CC8_Emulator.c:78-102 | the family dispatch sends 0x8A14 to ADD Vx,Vy and 0xF365 to LD Vx,[I] |
| Chip8Emulator.DecodedRegistersInV | src/Chip8/src/CC8_Emulator.c:204-205 | the decoded x and y index a valid context's 15-cell V file exactly when they are not 0xF |
| Chip8Emulator.Decode | src/Chip8/src/CC8_Emulator.c:204-208 | x, y, n < 16, kk < 256, nnn < 4096, kk = 16y + n, nnn = 256x + kk, and opcode = top nibble + nnn |
| Chip8Emulator.RecordedInstruction | src/Chip8/src/CC8_Emulator.c:193-233 | 0 for 0x0000; otherwise the opcode exactly when it was dispatched (or equals the marker) |
| Chip8Emulator.Step | src/Chip8/src/CC8_Emulator.c:193-233 | 0x0000 only clears INSTRUCTION; else a found handler runs with the decoded operands and INSTRUCTION = opcode, or INSTRUCTION = invalid marker; nothing else changes |
| Chip8Emulator.OpcodeAt | src/Chip8/src/CC8_Emulator.c:245-247 | the opcode is high * 256 + low, the high byte in bits 15-8 |
| Chip8Emulator.TickEmulation | src/Chip8/src/CC8_Emulator.c:241-253 | no context gives 0; otherwise the big-endian opcode at PC is stepped: the handler found and its decoded operands (none for 0x0000 or a miss), INSTRUCTION as `Step` sets it, PC += 2, I, SP, DELAY, SOUND and KEYBOARD kept, and the result is 1 whether or not it was dispatched |
| Chip8Emulator.BuiltTableRecordsHighOpcodes | src/Chip8/src/CC8_Emulator.c:53 | over a built table every opcode from 0x1000 up is dispatched and recorded as itself |
| Chip8Emulator.DelayTicked | src/Chip8/src/CC8_Emulator.c:235-239 | the delay decreases by one unless it is 0 |
| Chip8Emulator.DelaySaturates | src/Chip8/src/CC8_Emulator.c:235-239 | after n ticks the delay is max(d - n, 0): it never wraps |
| Chip8Emulator.TickDelayTimer | src/Chip8/src/CC8_Emulator.c:235-239 | DELAY becomes `DelayTicked(DELAY)`; nothing else changes |
| Chip8Emulator.SetKeyboardValue | src/Chip8/src/CC8_Emulator.c:255-258 | KEYBOARD becomes the key; nothing else changes |
| Chip8Emulator.CopyInto | src/Chip8/src/CC8_Emulator.c:162-173 | data goes to the cells from start on, and every other cell is kept |
| Chip8Emulator.LoadedRam | src/Chip8/src/CC8_Emulator.c:157-173 | RAM after a load: the font from 0, the image from 0x200, every other cell kept |
| Chip8Emulator.LoadProgram | src/Chip8/src/CC8_Emulator.c:137-182 | the table is built; with a file PC = 0x200, RAM = `LoadedRam` and the result is the size; without one 0 and RAM unchanged |

## Left out

- File and console I/O (`fopen`/`fread`/`MNE_ReadFile`, `printf`, `MNE_Log`, `HexDump`, `GB_PrintRomInfo`): a file is an `Option` of its bytes, and logging has no effect.
- Allocation and freeing (`MNE_New`, `MNE_Delete`, `calloc`, `free`, the quit functions): the allocator is taken to return zeroed memory.
- The khash table of `CC8_BuildInstructionLUT`: the fetch never consults it.
- The CHIP-8 instruction handlers: `CC8_Instructions` is not part of this model, so handlers are tags.
- `GB_BusRead`/`GB_BusWrite`, `GB_GetReg16`/`GB_SetReg16`: not shown. Memory is a flat 64 KiB array with no banking, echo or I/O side effects. A 16-bit access is a pair of the register file, or SP in place of pair 3.
- Interrupts and `GB_TickTimers`: only IME is modelled.
- Cycle counts: returned as written, with no claim about hardware timing.
- The UI (`GB_OnRender`, `GB_GetInfo`, the emulator shell).
- RLC, RRC, RR, SLA, SWAP, SRA, SRL and DAA: they only log. They are `LogOnly`, or the no-change branch of `CbPrefix`.
- RST (`GB_RST_N`): it changes nothing and returns 1, and it is not in the instruction table, so no tick reaches it.
- GbEmulation.FetchInstruction: scans exactly the 51 entries. The source's `<=` bound reads one entry past the table, which the model does not represent.
- GbEmulation.Tick and GbEmulation.TickEmulation: on a not-found fetch the source dereferences the null result before its `else`; the model takes that `else` branch. For a found opcode neither states the PC increment before dispatch nor the handler's effect, only INSTRUCTION and the cycle count; each handler method states its own effect.
- GbEmulation.Execute: states the cycle count and what is kept, not each handler's effect, which the handler methods state.
- GbEmulation.PopulateMemory: requires bytesRead to fit the 64 KiB memory and copies with an index that reaches it. The source's 16-bit index never ends the loop for a count of 0x10000 (see Findings).
- GbEmulation.ParseRom: returns no header for an image shorter than 0x150 bytes. `GB_ParseRom` has no size check and reads the header offsets of any buffer, past its end when the image is short; the model does not represent that read.
- Chip8Emulator.LoadProgram: requires the image to fit in RAM (0x200 + n <= 0xFFF), because the source writes past RAM otherwise.
- Chip8Emulator.TickEmulation: requires PC <= 0xFFD, because the source reads past RAM otherwise.
- Chip8Emulator.InstructionLut: the mask and handler arrays are unbounded sequences. In the source they have 33 slots (`CC8_Emulator.c:15-16`). The 34th `AddInstruction` writes slot 33, and every rebuild from `CC8_LoadProgram` writes slots 34-67, since `s_instrIndex` is never reset. The scan also reads mask slot 33. These out-of-bounds accesses are not represented; `BuiltTableOverflows` states that the build exceeds the capacity.
- GbRegisters.EmulationState.GetFlag: states only that `F >> flag` is at most F. `GetFlagIsBitIffHigherClear` states when it equals the flag's bit.

## Findings

| source | as written | input that shows it | evidently intended | confidence | as-written member | corrected member |
|---|---|---|---|---|---|---|
| src/GameBoy/src/SOC/GB_CPU.c:366 | Z tests the untruncated 16-bit sum | A = 0x80, r = 0x80: A becomes 0 with Z clear | Z set iff the stored byte is 0 | high; not executed | GbAlu.AddRegisterAgainstReference | GbAlu.AddWithCarry |
| src/GameBoy/src/SOC/GB_CPU.c:393 | H adds n's nibble to the already updated A | A = 0x0F, n = 0x01: H clear | H iff (A & 0xF) + (n & 0xF) > 0xF | high; not executed | GbAlu.AddImmediateHalfCarryExample | GbAlu.AddWithCarry |
| src/GameBoy/src/SOC/GB_CPU.c:445 | H is the sum of two nibbles and `C > 0xF` | A = 0x01, r = 0x01, C = 0: H = 3 | H iff the nibble sum with carry exceeds 0xF | high; not executed | GbAlu.AddCarryRegisterHalfCarryExample | GbAlu.AddWithCarry |
| src/GameBoy/src/SOC/GB_CPU.c:496 | ADC A,(HL): Z tests the untruncated sum | A = 0xFF, (HL) = 0x01, C = 0: A becomes 0 with Z clear | Z set iff the stored byte is 0 | high; not executed | GbAlu.AddCarryMemoryAgainstReference | GbAlu.AddWithCarry |
| src/GameBoy/src/SOC/GB_CPU.c:604 | SBC A,r: C ignores the borrow-in | A = r = 0x05, C = 1: C clear after a borrow | C iff A < r + C | high; not executed | GbAlu.SubtractCarryRegisterExample | GbAlu.SubWithBorrow |
| src/GameBoy/src/SOC/GB_CPU.c:630 | SBC A,n / SBC A,(HL): Z tests the untruncated difference | A = 0, n = 0xFF, C = 1: A becomes 0 with Z clear | Z set iff the stored byte is 0 | high; not executed | GbAlu.SubtractCarryMemoryAgainstReference | GbAlu.SubWithBorrow |
| src/GameBoy/src/SOC/GB_CPU.c:941-942 | CP (HL): H tests the byte difference > 0x0F, C tests > 0xFF | A = 0x00, (HL) = 0x01: C clear after a borrow | H and C as in CP r | high; not executed | GbAlu.CompareMemoryAgainstReference | GbAlu.SubWithBorrow |
| src/GameBoy/src/SOC/GB_CPU.c:964 | INC: H iff the new byte > 0x0F | r = 0x10: H set without a nibble carry | H iff the low nibble was 0xF | high; not executed | GbAlu.IncrementAgainstReference | GbAlu.IncrementReference |
| src/GameBoy/src/SOC/GB_CPU.c:1388 | CCF: `~` on a 4-bit field | C = 1 becomes 14, still set | C flips between 0 and 1 | high; not executed | GbAlu.ComplementCarryExample | GbAlu.ComplementCarryReference |
| src/GameBoy/src/SOC/GB_CPU.c:56-66 | LD (HL),r reads (HL) into r | r = B, any memory: memory unchanged, B overwritten | memory[HL] := r | high; not executed | GbCpu.LdHlR | GbCpu.LdHlRReference |
| src/GameBoy/src/SOC/GB_CPU.c:1510-1520 | JP cc,nn reads nn only when cc holds | cc false: PC stays on the lsb of nn, so the next tick runs that byte as an opcode | PC ends past nn either way, as the pseudo-code at lines 1503-1505 reads nn before testing cc | high; not executed | GbCpu.JpCcNn | GbCpu.JpCcNnReference |
| src/GameBoy/src/SOC/GB_CPU.c:1606-1622 | CALL cc,nn reads nn only when cc holds | cc false: PC stays on the lsb of nn, so the next tick runs that byte as an opcode | PC ends past nn either way, as the pseudo-code at lines 1595-1597 reads nn before testing cc | high; not executed | GbCpu.CallCcNn | GbCpu.CallCcNnReference |
| src/Chip8/src/CC8_Emulator.c:53 | the whitelist accepts `opmask == 0x8000` with no upper bound | 0x8A14 (ADD VA,V1) runs LD Vx,Vy | each opcode goes to the entry of its own family | high; not executed | Chip8Emulator.ScanMisroutesRegisterOps | Chip8Emulator.FamilyDispatchSelectsOwnEntry |
| src/GameBoy/src/Emulation/GB_Emulation.c:218-224 | the RAM index is `uint16_t` and the guard compares it with a `size_t` count | a 64 KiB image (bytesRead = 0x10000): the index wraps to 0 and the loop never ends | copy every byte of an image up to the 64 KiB memory, then stop | high; not executed | GbEmulation.PopulateLoopNeverExits | GbEmulation.PopulateMemory |
