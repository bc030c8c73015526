/**
 * The Game Boy instruction handlers of `GB_CPU.c`.
 *
 * Every handler receives the emulation state, finds its operands in the
 * opcode held in INSTRUCTION, in the bytes at PC and in memory, updates
 * registers, flags and memory in place, and returns its cycle count (most
 * counts are placeholders and are returned as written).  On entry PC already
 * points past the opcode.  Memory is the flat 64 KiB array: the bus read and
 * write functions are not part of this model.
 */
module GbCpu {
  import opened Bits
  import opened GbRegisterMap
  import opened GbRegisters
  import opened GbAlu

  // ---------------------------------------------------------------------
  // Operand fields of the opcode
  // ---------------------------------------------------------------------

  /** `INSTRUCTION & 0x07`: the source register, or the operand register of a CB opcode. */
  function SourceField(instr: word): (r: nat)
    ensures r < 8
  {
    instr % 8
  }

  /** `(INSTRUCTION & 0x38) >> 3`: the destination register. */
  function DestField(instr: word): (r: nat)
    ensures r < 8
  {
    (instr / 8) % 8
  }

  /** `(INSTRUCTION & 0x30) >> 4`: the register pair. */
  function PairField(instr: word): (r: nat)
    ensures r < 4
  {
    (instr / 16) % 4
  }

  /** `(INSTRUCTION & 0x18) >> 3`: the condition. */
  function CondField(instr: word): (r: nat)
    ensures r < 4
  {
    (instr / 8) % 4
  }

  /** The field functions are the masks and shifts the handlers write. */
  lemma FieldsAreMasks(instr: word)
    ensures BitAnd(instr, 0x07, 16) == SourceField(instr)
    ensures BitAnd(instr, 0x38, 16) / 8 == DestField(instr)
    ensures BitAnd(instr, 0x30, 16) / 16 == PairField(instr)
    ensures BitAnd(instr, 0x18, 16) / 8 == CondField(instr)
  {
    var q1, q2, q3, q4 := instr / 2, instr / 4, instr / 8, instr / 16;
    assert q2 == q1 / 2 && q3 == q2 / 2 && q4 == q3 / 2;
    AndLowThree(instr, 16);
    AndLowThree(q3, 13);
    AndLowTwo(q4, 12);
    AndLowTwo(q3, 13);
    assert BitAnd(instr, 0x38, 16) == 2 * BitAnd(q1, 0x1C, 15);
    assert BitAnd(q1, 0x1C, 15) == 2 * BitAnd(q2, 0x0E, 14);
    assert BitAnd(q2, 0x0E, 14) == 2 * BitAnd(q3, 0x07, 13);
    assert BitAnd(instr, 0x30, 16) == 2 * BitAnd(q1, 0x18, 15);
    assert BitAnd(q1, 0x18, 15) == 2 * BitAnd(q2, 0x0C, 14);
    assert BitAnd(q2, 0x0C, 14) == 2 * BitAnd(q3, 0x06, 13);
    assert BitAnd(q3, 0x06, 13) == 2 * BitAnd(q4, 0x03, 12);
    assert BitAnd(instr, 0x18, 16) == 2 * BitAnd(q1, 0x0C, 15);
    assert BitAnd(q1, 0x0C, 15) == 2 * BitAnd(q2, 0x06, 14);
    assert BitAnd(q2, 0x06, 14) == 2 * BitAnd(q3, 0x03, 13);
  }

  lemma AndLowTwo(x: nat, width: nat)
    requires width >= 2
    ensures BitAnd(x, 3, width) == x % 4
  {
    var q1 := x / 2;
    AndZero(q1 / 2, width - 2);
    assert BitAnd(q1, 1, width - 1) == q1 % 2;
    assert BitAnd(x, 3, width) == 2 * BitAnd(q1, 1, width - 1) + x % 2;
    assert x == 4 * (q1 / 2) + 2 * (q1 % 2) + x % 2;
  }

  lemma AndLowThree(x: nat, width: nat)
    requires width >= 3
    ensures BitAnd(x, 7, width) == x % 8
  {
    var q1 := x / 2;
    AndLowTwo(q1, width - 1);
    assert BitAnd(x, 7, width) == 2 * BitAnd(q1, 3, width - 1) + x % 2;
    assert x == 8 * (q1 / 4) + 2 * (q1 % 4) + x % 2;
  }

  // ---------------------------------------------------------------------
  // Register views
  // ---------------------------------------------------------------------

  function A(regs: Registers): byte { regs.file[OffsetA] }
  function BC(regs: Registers): word { Pair(regs.file, PairBc) }
  function DE(regs: Registers): word { Pair(regs.file, PairDe) }
  function HL(regs: Registers): word { Pair(regs.file, PairHl) }

  /** A and the flags after an 8-bit ALU operation on A. */
  function WithA(regs: Registers, r: AluResult): Registers
  {
    regs.(file := regs.file[OffsetA := r.value], flags := r.flags)
  }

  function WithHL(regs: Registers, v: word): Registers
  {
    regs.(file := WithPair(regs.file, PairHl, v))
  }

  /** `lsb | (0xFF << 8)`: the high-page address of LDH. */
  function HighPage(lsb: byte): word
  {
    U8ToU16(lsb, 0xFF)
  }

  /**
   * `GB_ResolveCondition`: NZ, Z, NC and C for 0 to 3, and 0 for any other
   * value.  Z and C return the field's value itself; NZ and NC return 0 or 1.
   */
  function ResolveCondition(regs: Registers, cc: nat): (r: nat)
    ensures cc >= 4 ==> r == 0
    ensures cc == 0 ==> (r != 0 <==> regs.flags.zero == 0)
    ensures cc == 1 ==> (r != 0 <==> regs.flags.zero != 0)
    ensures cc == 2 ==> (r != 0 <==> regs.flags.carry == 0)
    ensures cc == 3 ==> (r != 0 <==> regs.flags.carry != 0)
  {
    if cc == 0 then FromBool(regs.flags.zero == 0)
    else if cc == 1 then regs.flags.zero
    else if cc == 2 then FromBool(regs.flags.carry == 0)
    else if cc == 3 then regs.flags.carry
    else 0
  }

  /** NZ holds exactly when Z does not, and NC exactly when C does not. */
  lemma ConditionsComplement(regs: Registers)
    ensures (ResolveCondition(regs, 0) != 0) != (ResolveCondition(regs, 1) != 0)
    ensures (ResolveCondition(regs, 2) != 0) != (ResolveCondition(regs, 3) != 0)
  {
  }

  // ---------------------------------------------------------------------
  // Operand reads
  // ---------------------------------------------------------------------

  /** `GB_BusRead(ctx, PC++)`. */
  method ReadImmediate(ctx: EmulationState) returns (n: byte)
    requires ctx.Valid()
    modifies ctx
    ensures n == ctx.memory[old(ctx.registers.pc)]
    ensures ctx.registers == old(ctx.registers).(pc := Inc16(old(ctx.registers.pc)))
    ensures ctx.ime == old(ctx.ime) && ctx.header == old(ctx.header)
  {
    n := ctx.memory[ctx.registers.pc];
    ctx.registers := ctx.registers.(pc := Inc16(ctx.registers.pc));
  }

  /** Two immediate bytes, low first: `(uint16_t)(lsb | (msb << 8))`. */
  method ReadImmediateWord(ctx: EmulationState) returns (nn: word)
    requires ctx.Valid()
    modifies ctx
    ensures var pc := old(ctx.registers.pc);
            nn == U8ToU16(ctx.memory[pc], ctx.memory[Inc16(pc)])
    ensures ctx.registers == old(ctx.registers).(pc := Inc16(Inc16(old(ctx.registers.pc))))
    ensures ctx.ime == old(ctx.ime) && ctx.header == old(ctx.header)
  {
    var lsb := ReadImmediate(ctx);
    var msb := ReadImmediate(ctx);
    U8ToU16IsBitwiseOr(lsb, msb);
    nn := U8ToU16(lsb, msb);
  }

  // ---------------------------------------------------------------------
  // 8-bit loads
  // ---------------------------------------------------------------------

  /** LD r,r': the register named by bits 5-3 receives the one named by bits 2-0. */
  method LdRR(ctx: EmulationState) returns (cycles: byte)
    requires ctx.Valid()
    modifies ctx
    ensures var regs := old(ctx.registers);
            ctx.registers == regs.(file := regs.file[DestField(regs.instruction) := regs.file[SourceField(regs.instruction)]])
    ensures ctx.ime == old(ctx.ime) && ctx.header == old(ctx.header)
    ensures cycles == 4
  {
    var r1 := DestField(ctx.registers.instruction);
    var r2 := SourceField(ctx.registers.instruction);
    ctx.SetReg8(r1, ctx.GetReg8(r2));
    return 4;
  }

  /** LD r,n: the register named by bits 5-3 receives the byte at PC, and PC advances by one. */
  method LdRN(ctx: EmulationState) returns (cycles: byte)
    requires ctx.Valid()
    modifies ctx
    ensures var regs := old(ctx.registers);
            ctx.registers == regs.(file := regs.file[DestField(regs.instruction) := ctx.memory[regs.pc]], pc := Inc16(regs.pc))
    ensures ctx.ime == old(ctx.ime) && ctx.header == old(ctx.header)
    ensures cycles == 8
  {
    var r := DestField(ctx.registers.instruction);
    var n := ReadImmediate(ctx);
    ctx.SetReg8(r, n);
    return 8;
  }

  /** LD r,(HL). */
  method LdRHl(ctx: EmulationState) returns (cycles: byte)
    requires ctx.Valid()
    modifies ctx
    ensures var regs := old(ctx.registers);
            ctx.registers == regs.(file := regs.file[DestField(regs.instruction) := ctx.memory[HL(regs)]])
    ensures ctx.ime == old(ctx.ime) && ctx.header == old(ctx.header)
    ensures cycles == 8
  {
    var r := DestField(ctx.registers.instruction);
    ctx.SetReg8(r, ctx.memory[HL(ctx.registers)]);
    return 8;
  }

  /**
   * LD (HL),r as written: it loads the register named by bits 2-0 from (HL)
   * instead of storing it there, and memory is left unchanged.
   */
  method LdHlR(ctx: EmulationState) returns (cycles: byte)
    requires ctx.Valid()
    modifies ctx
    ensures var regs := old(ctx.registers);
            ctx.registers == regs.(file := regs.file[SourceField(regs.instruction) := ctx.memory[HL(regs)]])
    ensures ctx.ime == old(ctx.ime) && ctx.header == old(ctx.header)
    ensures cycles == 8
  {
    var r := SourceField(ctx.registers.instruction);
    ctx.SetReg8(r, ctx.memory[HL(ctx.registers)]);
    return 8;
  }

  /** LD (HL),r as its comment describes: (HL) receives the register. */
  method LdHlRReference(ctx: EmulationState) returns (cycles: byte)
    requires ctx.Valid()
    modifies ctx.memory
    ensures var regs := ctx.registers;
            ctx.memory[..] == old(ctx.memory[..])[HL(regs) := regs.file[SourceField(regs.instruction)]]
    ensures cycles == 8
  {
    var r := SourceField(ctx.registers.instruction);
    ctx.memory[HL(ctx.registers)] := ctx.GetReg8(r);
    return 8;
  }

  /** LD (HL),n. */
  method LdHlN(ctx: EmulationState) returns (cycles: byte)
    requires ctx.Valid()
    modifies ctx, ctx.memory
    ensures var regs := old(ctx.registers);
            ctx.registers == regs.(pc := Inc16(regs.pc))
            && ctx.memory[..] == old(ctx.memory[..])[HL(regs) := old(ctx.memory[regs.pc])]
    ensures ctx.ime == old(ctx.ime) && ctx.header == old(ctx.header)
    ensures cycles == 1
  {
    var n := ReadImmediate(ctx);
    ctx.memory[HL(ctx.registers)] := n;
    return 1;
  }

  /** LD A,(BC). */
  method LdABc(ctx: EmulationState) returns (cycles: byte)
    requires ctx.Valid()
    modifies ctx
    ensures var regs := old(ctx.registers);
            ctx.registers == regs.(file := regs.file[OffsetA := ctx.memory[BC(regs)]])
    ensures ctx.ime == old(ctx.ime) && ctx.header == old(ctx.header)
    ensures cycles == 1
  {
    ctx.SetReg8(OffsetA, ctx.memory[BC(ctx.registers)]);
    return 1;
  }

  /** LD A,(DE). */
  method LdADe(ctx: EmulationState) returns (cycles: byte)
    requires ctx.Valid()
    modifies ctx
    ensures var regs := old(ctx.registers);
            ctx.registers == regs.(file := regs.file[OffsetA := ctx.memory[DE(regs)]])
    ensures ctx.ime == old(ctx.ime) && ctx.header == old(ctx.header)
    ensures cycles == 1
  {
    ctx.SetReg8(OffsetA, ctx.memory[DE(ctx.registers)]);
    return 1;
  }

  /** LD A,(nn). */
  method LdANn(ctx: EmulationState) returns (cycles: byte)
    requires ctx.Valid()
    modifies ctx
    ensures var regs := old(ctx.registers);
            var nn := U8ToU16(ctx.memory[regs.pc], ctx.memory[Inc16(regs.pc)]);
            ctx.registers == regs.(file := regs.file[OffsetA := ctx.memory[nn]], pc := Inc16(Inc16(regs.pc)))
    ensures ctx.ime == old(ctx.ime) && ctx.header == old(ctx.header)
    ensures cycles == 1
  {
    var nn := ReadImmediateWord(ctx);
    ctx.SetReg8(OffsetA, ctx.memory[nn]);
    return 1;
  }

  /** LD (BC),A. */
  method LdBcA(ctx: EmulationState) returns (cycles: byte)
    requires ctx.Valid()
    modifies ctx.memory
    ensures ctx.memory[..] == old(ctx.memory[..])[BC(ctx.registers) := A(ctx.registers)]
    ensures cycles == 1
  {
    ctx.memory[BC(ctx.registers)] := A(ctx.registers);
    return 1;
  }

  /** LD (DE),A. */
  method LdDeA(ctx: EmulationState) returns (cycles: byte)
    requires ctx.Valid()
    modifies ctx.memory
    ensures ctx.memory[..] == old(ctx.memory[..])[DE(ctx.registers) := A(ctx.registers)]
    ensures cycles == 1
  {
    ctx.memory[DE(ctx.registers)] := A(ctx.registers);
    return 1;
  }

  /** LD (nn),A. */
  method LdNnA(ctx: EmulationState) returns (cycles: byte)
    requires ctx.Valid()
    modifies ctx, ctx.memory
    ensures var regs := old(ctx.registers);
            var nn := U8ToU16(old(ctx.memory[regs.pc]), old(ctx.memory[Inc16(regs.pc)]));
            ctx.registers == regs.(pc := Inc16(Inc16(regs.pc)))
            && ctx.memory[..] == old(ctx.memory[..])[nn := A(regs)]
    ensures ctx.ime == old(ctx.ime) && ctx.header == old(ctx.header)
    ensures cycles == 1
  {
    var nn := ReadImmediateWord(ctx);
    ctx.memory[nn] := A(ctx.registers);
    return 1;
  }

  /** LDH A,(n): A receives the byte at 0xFF00 + n. */
  method LdhAN(ctx: EmulationState) returns (cycles: byte)
    requires ctx.Valid()
    modifies ctx
    ensures var regs := old(ctx.registers);
            ctx.registers == regs.(file := regs.file[OffsetA := ctx.memory[0xFF00 + ctx.memory[regs.pc]]], pc := Inc16(regs.pc))
    ensures ctx.ime == old(ctx.ime) && ctx.header == old(ctx.header)
    ensures cycles == 1
  {
    var n := ReadImmediate(ctx);
    U8ToU16IsBitwiseOr(n, 0xFF);
    ctx.SetReg8(OffsetA, ctx.memory[HighPage(n)]);
    return 1;
  }

  /** LDH (n),A: 0xFF00 + n receives A. */
  method LdhNA(ctx: EmulationState) returns (cycles: byte)
    requires ctx.Valid()
    modifies ctx, ctx.memory
    ensures var regs := old(ctx.registers);
            ctx.registers == regs.(pc := Inc16(regs.pc))
            && ctx.memory[..] == old(ctx.memory[..])[0xFF00 + old(ctx.memory[regs.pc]) := A(regs)]
    ensures ctx.ime == old(ctx.ime) && ctx.header == old(ctx.header)
    ensures cycles == 1
  {
    var n := ReadImmediate(ctx);
    ctx.memory[HighPage(n)] := A(ctx.registers);
    return 1;
  }

  /** LDH A,(C): A receives the byte at 0xFF00 + C. */
  method LdhAC(ctx: EmulationState) returns (cycles: byte)
    requires ctx.Valid()
    modifies ctx
    ensures var regs := old(ctx.registers);
            ctx.registers == regs.(file := regs.file[OffsetA := ctx.memory[0xFF00 + regs.file[OffsetC]]])
    ensures ctx.ime == old(ctx.ime) && ctx.header == old(ctx.header)
    ensures cycles == 1
  {
    ctx.SetReg8(OffsetA, ctx.memory[HighPage(ctx.GetReg8(OffsetC))]);
    return 1;
  }

  /** LDH (C),A: 0xFF00 + C receives A. */
  method LdhCA(ctx: EmulationState) returns (cycles: byte)
    requires ctx.Valid()
    modifies ctx.memory
    ensures ctx.memory[..] == old(ctx.memory[..])[0xFF00 + ctx.registers.file[OffsetC] := A(ctx.registers)]
    ensures cycles == 1
  {
    ctx.memory[HighPage(ctx.GetReg8(OffsetC))] := A(ctx.registers);
    return 1;
  }

  /** LDI (HL),A: (HL) receives A, then HL steps up with 16-bit wrap-around. */
  method LdiHlA(ctx: EmulationState) returns (cycles: byte)
    requires ctx.Valid()
    modifies ctx, ctx.memory
    ensures var regs := old(ctx.registers);
            ctx.registers == WithHL(regs, Inc16(HL(regs)))
            && ctx.memory[..] == old(ctx.memory[..])[HL(regs) := A(regs)]
    ensures ctx.ime == old(ctx.ime) && ctx.header == old(ctx.header)
    ensures cycles == 2
  {
    var hl := HL(ctx.registers);
    ctx.memory[hl] := A(ctx.registers);
    ctx.registers := WithHL(ctx.registers, Inc16(hl));
    return 2;
  }

  /** LDI A,(HL): A receives (HL), then HL steps up. */
  method LdiAHl(ctx: EmulationState) returns (cycles: byte)
    requires ctx.Valid()
    modifies ctx
    ensures var regs := old(ctx.registers);
            ctx.registers == WithHL(regs.(file := regs.file[OffsetA := ctx.memory[HL(regs)]]), Inc16(HL(regs)))
    ensures ctx.ime == old(ctx.ime) && ctx.header == old(ctx.header)
    ensures cycles == 1
  {
    var hl := HL(ctx.registers);
    ctx.SetReg8(OffsetA, ctx.memory[hl]);
    ctx.registers := WithHL(ctx.registers, Inc16(hl));
    return 1;
  }

  /** LDD (HL),A: (HL) receives A, then HL steps down with 16-bit wrap-around. */
  method LddHlA(ctx: EmulationState) returns (cycles: byte)
    requires ctx.Valid()
    modifies ctx, ctx.memory
    ensures var regs := old(ctx.registers);
            ctx.registers == WithHL(regs, Dec16(HL(regs)))
            && ctx.memory[..] == old(ctx.memory[..])[HL(regs) := A(regs)]
    ensures ctx.ime == old(ctx.ime) && ctx.header == old(ctx.header)
    ensures cycles == 1
  {
    var hl := HL(ctx.registers);
    ctx.memory[hl] := A(ctx.registers);
    ctx.registers := WithHL(ctx.registers, Dec16(hl));
    return 1;
  }

  /** LDD A,(HL): A receives (HL), then HL steps down. */
  method LddAHl(ctx: EmulationState) returns (cycles: byte)
    requires ctx.Valid()
    modifies ctx
    ensures var regs := old(ctx.registers);
            ctx.registers == WithHL(regs.(file := regs.file[OffsetA := ctx.memory[HL(regs)]]), Dec16(HL(regs)))
    ensures ctx.ime == old(ctx.ime) && ctx.header == old(ctx.header)
    ensures cycles == 1
  {
    var hl := HL(ctx.registers);
    ctx.SetReg8(OffsetA, ctx.memory[hl]);
    ctx.registers := WithHL(ctx.registers, Dec16(hl));
    return 1;
  }

  // ---------------------------------------------------------------------
  // 16-bit loads and the stack
  // ---------------------------------------------------------------------

  /** LD rr,nn: pair 3 means SP. */
  method LdRrNn(ctx: EmulationState) returns (cycles: byte)
    requires ctx.Valid()
    modifies ctx
    ensures var regs := old(ctx.registers);
            var nn := U8ToU16(ctx.memory[regs.pc], ctx.memory[Inc16(regs.pc)]);
            ctx.registers == SetReg16(regs.(pc := Inc16(Inc16(regs.pc))), PairField(regs.instruction), nn, ModeSp)
    ensures ctx.ime == old(ctx.ime) && ctx.header == old(ctx.header)
    ensures cycles == 2
  {
    var rr := PairField(ctx.registers.instruction);
    var nn := ReadImmediateWord(ctx);
    ctx.registers := SetReg16(ctx.registers, rr, nn, ModeSp);
    return 2;
  }

  /** LD (nn),SP: the low byte of SP at nn, the high byte at nn + 1 (wrapping). */
  method LdNnSp(ctx: EmulationState) returns (cycles: byte)
    requires ctx.Valid()
    modifies ctx, ctx.memory
    ensures var regs := old(ctx.registers);
            var nn := U8ToU16(old(ctx.memory[regs.pc]), old(ctx.memory[Inc16(regs.pc)]));
            ctx.registers == regs.(pc := Inc16(Inc16(regs.pc)))
            && ctx.memory[..] == old(ctx.memory[..])[nn := Lsb(regs.sp)][Inc16(nn) := Msb(regs.sp)]
    ensures ctx.ime == old(ctx.ime) && ctx.header == old(ctx.header)
    ensures cycles == 1
  {
    var nn := ReadImmediateWord(ctx);
    var sp := ctx.registers.sp;
    ctx.memory[nn] := Lsb(sp);
    ctx.memory[Inc16(nn)] := Msb(sp);
    return 1;
  }

  /** LD SP,HL. */
  method LdSpHl(ctx: EmulationState) returns (cycles: byte)
    requires ctx.Valid()
    modifies ctx
    ensures ctx.registers == old(ctx.registers).(sp := HL(old(ctx.registers)))
    ensures ctx.ime == old(ctx.ime) && ctx.header == old(ctx.header)
    ensures cycles == 1
  {
    ctx.registers := ctx.registers.(sp := HL(ctx.registers));
    return 1;
  }

  /** PUSH rr (pair 3 means AF): the high byte at SP - 1, the low byte at SP - 2, and SP lowered by two. */
  method PushRr(ctx: EmulationState) returns (cycles: byte)
    requires ctx.Valid()
    modifies ctx, ctx.memory
    ensures var regs := old(ctx.registers);
            var v := GetReg16(regs, PairField(regs.instruction), ModeAf);
            ctx.registers == regs.(sp := Dec16(Dec16(regs.sp)))
            && ctx.memory[..] == old(ctx.memory[..])[Dec16(regs.sp) := Msb(v)][Dec16(Dec16(regs.sp)) := Lsb(v)]
    ensures ctx.ime == old(ctx.ime) && ctx.header == old(ctx.header)
    ensures cycles == 1
  {
    var rr := PairField(ctx.registers.instruction);
    var drr := GetReg16(ctx.registers, rr, ModeAf);
    ctx.registers := ctx.registers.(sp := Dec16(ctx.registers.sp));
    ctx.memory[ctx.registers.sp] := Msb(drr);
    ctx.registers := ctx.registers.(sp := Dec16(ctx.registers.sp));
    ctx.memory[ctx.registers.sp] := Lsb(drr);
    return 1;
  }

  /** POP rr (pair 3 means AF): the low byte from SP, the high byte from SP + 1, and SP raised by two. */
  method PopRr(ctx: EmulationState) returns (cycles: byte)
    requires ctx.Valid()
    modifies ctx
    ensures var regs := old(ctx.registers);
            var v := U8ToU16(ctx.memory[regs.sp], ctx.memory[Inc16(regs.sp)]);
            ctx.registers == SetReg16(regs.(sp := Inc16(Inc16(regs.sp))), PairField(regs.instruction), v, ModeAf)
    ensures ctx.ime == old(ctx.ime) && ctx.header == old(ctx.header)
    ensures cycles == 1
  {
    var rr := PairField(ctx.registers.instruction);
    var l := ctx.memory[ctx.registers.sp];
    ctx.registers := ctx.registers.(sp := Inc16(ctx.registers.sp));
    var h := ctx.memory[ctx.registers.sp];
    ctx.registers := ctx.registers.(sp := Inc16(ctx.registers.sp));
    U8ToU16IsBitwiseOr(l, h);
    ctx.registers := SetReg16(ctx.registers, rr, U8ToU16(l, h), ModeAf);
    return 1;
  }

  // ---------------------------------------------------------------------
  // 8-bit arithmetic and logic
  // ---------------------------------------------------------------------

  /** ADD A,r. */
  method AddAR(ctx: EmulationState) returns (cycles: byte)
    requires ctx.Valid()
    modifies ctx
    ensures var regs := old(ctx.registers);
            ctx.registers == WithA(regs, AddRegister(A(regs), regs.file[SourceField(regs.instruction)], regs.flags))
    ensures ctx.ime == old(ctx.ime) && ctx.header == old(ctx.header)
    ensures cycles == 4
  {
    var v := ctx.GetReg8(SourceField(ctx.registers.instruction));
    ctx.registers := WithA(ctx.registers, AddRegister(A(ctx.registers), v, ctx.registers.flags));
    return 4;
  }

  /** ADD A,n. */
  method AddAN(ctx: EmulationState) returns (cycles: byte)
    requires ctx.Valid()
    modifies ctx
    ensures var regs := old(ctx.registers);
            ctx.registers == WithA(regs.(pc := Inc16(regs.pc)), AddImmediate(A(regs), ctx.memory[regs.pc], regs.flags))
    ensures ctx.ime == old(ctx.ime) && ctx.header == old(ctx.header)
    ensures cycles == 1
  {
    var n := ReadImmediate(ctx);
    ctx.registers := WithA(ctx.registers, AddImmediate(A(ctx.registers), n, ctx.registers.flags));
    return 1;
  }

  /** ADD A,(HL). */
  method AddAHl(ctx: EmulationState) returns (cycles: byte)
    requires ctx.Valid()
    modifies ctx
    ensures var regs := old(ctx.registers);
            ctx.registers == WithA(regs, AddRegister(A(regs), ctx.memory[HL(regs)], regs.flags))
    ensures ctx.ime == old(ctx.ime) && ctx.header == old(ctx.header)
    ensures cycles == 8
  {
    var data := ctx.memory[HL(ctx.registers)];
    ctx.registers := WithA(ctx.registers, AddRegister(A(ctx.registers), data, ctx.registers.flags));
    return 8;
  }

  /** ADC A,r. */
  method AdcAR(ctx: EmulationState) returns (cycles: byte)
    requires ctx.Valid()
    modifies ctx
    ensures var regs := old(ctx.registers);
            ctx.registers == WithA(regs, AddCarryRegister(A(regs), regs.file[SourceField(regs.instruction)], regs.flags))
    ensures ctx.ime == old(ctx.ime) && ctx.header == old(ctx.header)
    ensures cycles == 4
  {
    var v := ctx.GetReg8(SourceField(ctx.registers.instruction));
    ctx.registers := WithA(ctx.registers, AddCarryRegister(A(ctx.registers), v, ctx.registers.flags));
    return 4;
  }

  /** ADC A,n. */
  method AdcAN(ctx: EmulationState) returns (cycles: byte)
    requires ctx.Valid()
    modifies ctx
    ensures var regs := old(ctx.registers);
            ctx.registers == WithA(regs.(pc := Inc16(regs.pc)), AddCarryRegister(A(regs), ctx.memory[regs.pc], regs.flags))
    ensures ctx.ime == old(ctx.ime) && ctx.header == old(ctx.header)
    ensures cycles == 8
  {
    var n := ReadImmediate(ctx);
    ctx.registers := WithA(ctx.registers, AddCarryRegister(A(ctx.registers), n, ctx.registers.flags));
    return 8;
  }

  /** ADC A,(HL). */
  method AdcAHl(ctx: EmulationState) returns (cycles: byte)
    requires ctx.Valid()
    modifies ctx
    ensures var regs := old(ctx.registers);
            ctx.registers == WithA(regs, AddCarryMemory(A(regs), ctx.memory[HL(regs)], regs.flags))
    ensures ctx.ime == old(ctx.ime) && ctx.header == old(ctx.header)
    ensures cycles == 8
  {
    var n := ctx.memory[HL(ctx.registers)];
    ctx.registers := WithA(ctx.registers, AddCarryMemory(A(ctx.registers), n, ctx.registers.flags));
    return 8;
  }

  /** SUB r. */
  method SubR(ctx: EmulationState) returns (cycles: byte)
    requires ctx.Valid()
    modifies ctx
    ensures var regs := old(ctx.registers);
            ctx.registers == WithA(regs, SubWithBorrow(A(regs), regs.file[SourceField(regs.instruction)], 0, regs.flags))
    ensures ctx.ime == old(ctx.ime) && ctx.header == old(ctx.header)
    ensures cycles == 1
  {
    var data := ctx.GetReg8(SourceField(ctx.registers.instruction));
    ctx.registers := WithA(ctx.registers, SubWithBorrow(A(ctx.registers), data, 0, ctx.registers.flags));
    return 1;
  }

  /** SUB n. */
  method SubN(ctx: EmulationState) returns (cycles: byte)
    requires ctx.Valid()
    modifies ctx
    ensures var regs := old(ctx.registers);
            ctx.registers == WithA(regs.(pc := Inc16(regs.pc)), SubWithBorrow(A(regs), ctx.memory[regs.pc], 0, regs.flags))
    ensures ctx.ime == old(ctx.ime) && ctx.header == old(ctx.header)
    ensures cycles == 1
  {
    var n := ReadImmediate(ctx);
    ctx.registers := WithA(ctx.registers, SubWithBorrow(A(ctx.registers), n, 0, ctx.registers.flags));
    return 1;
  }

  /** SUB (HL). */
  method SubHl(ctx: EmulationState) returns (cycles: byte)
    requires ctx.Valid()
    modifies ctx
    ensures var regs := old(ctx.registers);
            ctx.registers == WithA(regs, SubWithBorrow(A(regs), ctx.memory[HL(regs)], 0, regs.flags))
    ensures ctx.ime == old(ctx.ime) && ctx.header == old(ctx.header)
    ensures cycles == 1
  {
    var n := ctx.memory[HL(ctx.registers)];
    ctx.registers := WithA(ctx.registers, SubWithBorrow(A(ctx.registers), n, 0, ctx.registers.flags));
    return 1;
  }

  /** SBC A,r. */
  method SbcAR(ctx: EmulationState) returns (cycles: byte)
    requires ctx.Valid()
    modifies ctx
    ensures var regs := old(ctx.registers);
            ctx.registers == WithA(regs, SubtractCarryRegister(A(regs), regs.file[SourceField(regs.instruction)], regs.flags))
    ensures ctx.ime == old(ctx.ime) && ctx.header == old(ctx.header)
    ensures cycles == 1
  {
    var rr := ctx.GetReg8(SourceField(ctx.registers.instruction));
    ctx.registers := WithA(ctx.registers, SubtractCarryRegister(A(ctx.registers), rr, ctx.registers.flags));
    return 1;
  }

  /** SBC A,n. */
  method SbcAN(ctx: EmulationState) returns (cycles: byte)
    requires ctx.Valid()
    modifies ctx
    ensures var regs := old(ctx.registers);
            ctx.registers == WithA(regs.(pc := Inc16(regs.pc)), SubtractCarryMemory(A(regs), ctx.memory[regs.pc], regs.flags))
    ensures ctx.ime == old(ctx.ime) && ctx.header == old(ctx.header)
    ensures cycles == 1
  {
    var n := ReadImmediate(ctx);
    ctx.registers := WithA(ctx.registers, SubtractCarryMemory(A(ctx.registers), n, ctx.registers.flags));
    return 1;
  }

  /** SBC A,(HL). */
  method SbcAHl(ctx: EmulationState) returns (cycles: byte)
    requires ctx.Valid()
    modifies ctx
    ensures var regs := old(ctx.registers);
            ctx.registers == WithA(regs, SubtractCarryMemory(A(regs), ctx.memory[HL(regs)], regs.flags))
    ensures ctx.ime == old(ctx.ime) && ctx.header == old(ctx.header)
    ensures cycles == 1
  {
    var n := ctx.memory[HL(ctx.registers)];
    ctx.registers := WithA(ctx.registers, SubtractCarryMemory(A(ctx.registers), n, ctx.registers.flags));
    return 1;
  }

  /** AND r: only Z among the flags changes. */
  method AndR(ctx: EmulationState) returns (cycles: byte)
    requires ctx.Valid()
    modifies ctx
    ensures var regs := old(ctx.registers);
            ctx.registers == WithA(regs, AndRegister(A(regs), regs.file[SourceField(regs.instruction)], regs.flags))
    ensures ctx.ime == old(ctx.ime) && ctx.header == old(ctx.header)
    ensures cycles == 1
  {
    var v := ctx.GetReg8(SourceField(ctx.registers.instruction));
    ctx.registers := WithA(ctx.registers, AndRegister(A(ctx.registers), v, ctx.registers.flags));
    return 1;
  }

  /** AND n. */
  method AndN(ctx: EmulationState) returns (cycles: byte)
    requires ctx.Valid()
    modifies ctx
    ensures var regs := old(ctx.registers);
            ctx.registers == WithA(regs.(pc := Inc16(regs.pc)), And(A(regs), ctx.memory[regs.pc], regs.flags))
    ensures ctx.ime == old(ctx.ime) && ctx.header == old(ctx.header)
    ensures cycles == 1
  {
    var n := ReadImmediate(ctx);
    ctx.registers := WithA(ctx.registers, And(A(ctx.registers), n, ctx.registers.flags));
    return 1;
  }

  /** AND (HL). */
  method AndHl(ctx: EmulationState) returns (cycles: byte)
    requires ctx.Valid()
    modifies ctx
    ensures var regs := old(ctx.registers);
            ctx.registers == WithA(regs, And(A(regs), ctx.memory[HL(regs)], regs.flags))
    ensures ctx.ime == old(ctx.ime) && ctx.header == old(ctx.header)
    ensures cycles == 1
  {
    var data := ctx.memory[HL(ctx.registers)];
    ctx.registers := WithA(ctx.registers, And(A(ctx.registers), data, ctx.registers.flags));
    return 1;
  }

  /** XOR r. */
  method XorR(ctx: EmulationState) returns (cycles: byte)
    requires ctx.Valid()
    modifies ctx
    ensures var regs := old(ctx.registers);
            ctx.registers == WithA(regs, Xor(A(regs), regs.file[SourceField(regs.instruction)], regs.flags))
    ensures ctx.ime == old(ctx.ime) && ctx.header == old(ctx.header)
    ensures cycles == 1
  {
    var v := ctx.GetReg8(SourceField(ctx.registers.instruction));
    ctx.registers := WithA(ctx.registers, Xor(A(ctx.registers), v, ctx.registers.flags));
    return 1;
  }

  /** XOR n. */
  method XorN(ctx: EmulationState) returns (cycles: byte)
    requires ctx.Valid()
    modifies ctx
    ensures var regs := old(ctx.registers);
            ctx.registers == WithA(regs.(pc := Inc16(regs.pc)), Xor(A(regs), ctx.memory[regs.pc], regs.flags))
    ensures ctx.ime == old(ctx.ime) && ctx.header == old(ctx.header)
    ensures cycles == 1
  {
    var n := ReadImmediate(ctx);
    ctx.registers := WithA(ctx.registers, Xor(A(ctx.registers), n, ctx.registers.flags));
    return 1;
  }

  /** XOR (HL). */
  method XorHl(ctx: EmulationState) returns (cycles: byte)
    requires ctx.Valid()
    modifies ctx
    ensures var regs := old(ctx.registers);
            ctx.registers == WithA(regs, Xor(A(regs), ctx.memory[HL(regs)], regs.flags))
    ensures ctx.ime == old(ctx.ime) && ctx.header == old(ctx.header)
    ensures cycles == 1
  {
    var data := ctx.memory[HL(ctx.registers)];
    ctx.registers := WithA(ctx.registers, Xor(A(ctx.registers), data, ctx.registers.flags));
    return 1;
  }

  /** OR r. */
  method OrR(ctx: EmulationState) returns (cycles: byte)
    requires ctx.Valid()
    modifies ctx
    ensures var regs := old(ctx.registers);
            ctx.registers == WithA(regs, Or(A(regs), regs.file[SourceField(regs.instruction)], regs.flags))
    ensures ctx.ime == old(ctx.ime) && ctx.header == old(ctx.header)
    ensures cycles == 1
  {
    var v := ctx.GetReg8(SourceField(ctx.registers.instruction));
    ctx.registers := WithA(ctx.registers, Or(A(ctx.registers), v, ctx.registers.flags));
    return 1;
  }

  /** OR n. */
  method OrN(ctx: EmulationState) returns (cycles: byte)
    requires ctx.Valid()
    modifies ctx
    ensures var regs := old(ctx.registers);
            ctx.registers == WithA(regs.(pc := Inc16(regs.pc)), Or(A(regs), ctx.memory[regs.pc], regs.flags))
    ensures ctx.ime == old(ctx.ime) && ctx.header == old(ctx.header)
    ensures cycles == 1
  {
    var n := ReadImmediate(ctx);
    ctx.registers := WithA(ctx.registers, Or(A(ctx.registers), n, ctx.registers.flags));
    return 1;
  }

  /** OR (HL). */
  method OrHl(ctx: EmulationState) returns (cycles: byte)
    requires ctx.Valid()
    modifies ctx
    ensures var regs := old(ctx.registers);
            ctx.registers == WithA(regs, Or(A(regs), ctx.memory[HL(regs)], regs.flags))
    ensures ctx.ime == old(ctx.ime) && ctx.header == old(ctx.header)
    ensures cycles == 1
  {
    var data := ctx.memory[HL(ctx.registers)];
    ctx.registers := WithA(ctx.registers, Or(A(ctx.registers), data, ctx.registers.flags));
    return 1;
  }

  /** CP r: the flags of SUB r; A unchanged. */
  method CpR(ctx: EmulationState) returns (cycles: byte)
    requires ctx.Valid()
    modifies ctx
    ensures var regs := old(ctx.registers);
            ctx.registers == regs.(flags := SubWithBorrow(A(regs), regs.file[SourceField(regs.instruction)], 0, regs.flags).flags)
    ensures ctx.ime == old(ctx.ime) && ctx.header == old(ctx.header)
    ensures cycles == 1
  {
    var r := ctx.GetReg8(SourceField(ctx.registers.instruction));
    ctx.registers := ctx.registers.(flags := SubWithBorrow(A(ctx.registers), r, 0, ctx.registers.flags).flags);
    return 1;
  }

  /** CP n: the flags of SUB n; A unchanged. */
  method CpN(ctx: EmulationState) returns (cycles: byte)
    requires ctx.Valid()
    modifies ctx
    ensures var regs := old(ctx.registers);
            ctx.registers == regs.(pc := Inc16(regs.pc), flags := SubWithBorrow(A(regs), ctx.memory[regs.pc], 0, regs.flags).flags)
    ensures ctx.ime == old(ctx.ime) && ctx.header == old(ctx.header)
    ensures cycles == 1
  {
    var n := ReadImmediate(ctx);
    ctx.registers := ctx.registers.(flags := SubWithBorrow(A(ctx.registers), n, 0, ctx.registers.flags).flags);
    return 1;
  }

  /** CP (HL); A unchanged. */
  method CpHl(ctx: EmulationState) returns (cycles: byte)
    requires ctx.Valid()
    modifies ctx
    ensures var regs := old(ctx.registers);
            ctx.registers == regs.(flags := CompareMemory(A(regs), ctx.memory[HL(regs)], regs.flags))
    ensures ctx.ime == old(ctx.ime) && ctx.header == old(ctx.header)
    ensures cycles == 1
  {
    var data := ctx.memory[HL(ctx.registers)];
    ctx.registers := ctx.registers.(flags := CompareMemory(A(ctx.registers), data, ctx.registers.flags));
    return 1;
  }

  /** INC r: the register named by bits 5-3. */
  method IncR(ctx: EmulationState) returns (cycles: byte)
    requires ctx.Valid()
    modifies ctx
    ensures var regs := old(ctx.registers);
            var r := DestField(regs.instruction);
            var res := Increment(regs.file[r], regs.flags);
            ctx.registers == regs.(file := regs.file[r := res.value], flags := res.flags)
    ensures ctx.ime == old(ctx.ime) && ctx.header == old(ctx.header)
    ensures cycles == 1
  {
    var r := DestField(ctx.registers.instruction);
    var res := Increment(ctx.GetReg8(r), ctx.registers.flags);
    ctx.SetReg8(r, res.value);
    ctx.registers := ctx.registers.(flags := res.flags);
    return 1;
  }

  /** INC (HL). */
  method IncHl(ctx: EmulationState) returns (cycles: byte)
    requires ctx.Valid()
    modifies ctx, ctx.memory
    ensures var regs := old(ctx.registers);
            var res := Increment(old(ctx.memory[HL(regs)]), regs.flags);
            ctx.registers == regs.(flags := res.flags)
            && ctx.memory[..] == old(ctx.memory[..])[HL(regs) := res.value]
    ensures ctx.ime == old(ctx.ime) && ctx.header == old(ctx.header)
    ensures cycles == 1
  {
    var hl := HL(ctx.registers);
    var res := Increment(ctx.memory[hl], ctx.registers.flags);
    ctx.memory[hl] := res.value;
    ctx.registers := ctx.registers.(flags := res.flags);
    return 1;
  }

  /** DEC r: the register named by bits 5-3. */
  method DecR(ctx: EmulationState) returns (cycles: byte)
    requires ctx.Valid()
    modifies ctx
    ensures var regs := old(ctx.registers);
            var r := DestField(regs.instruction);
            var res := Decrement(regs.file[r], regs.flags);
            ctx.registers == regs.(file := regs.file[r := res.value], flags := res.flags)
    ensures ctx.ime == old(ctx.ime) && ctx.header == old(ctx.header)
    ensures cycles == 1
  {
    var r := DestField(ctx.registers.instruction);
    var res := Decrement(ctx.GetReg8(r), ctx.registers.flags);
    ctx.SetReg8(r, res.value);
    ctx.registers := ctx.registers.(flags := res.flags);
    return 1;
  }

  /** DEC (HL). */
  method DecHl(ctx: EmulationState) returns (cycles: byte)
    requires ctx.Valid()
    modifies ctx, ctx.memory
    ensures var regs := old(ctx.registers);
            var res := Decrement(old(ctx.memory[HL(regs)]), regs.flags);
            ctx.registers == regs.(flags := res.flags)
            && ctx.memory[..] == old(ctx.memory[..])[HL(regs) := res.value]
    ensures ctx.ime == old(ctx.ime) && ctx.header == old(ctx.header)
    ensures cycles == 1
  {
    var hl := HL(ctx.registers);
    var res := Decrement(ctx.memory[hl], ctx.registers.flags);
    ctx.memory[hl] := res.value;
    ctx.registers := ctx.registers.(flags := res.flags);
    return 1;
  }

  /** CPL. */
  method Cpl(ctx: EmulationState) returns (cycles: byte)
    requires ctx.Valid()
    modifies ctx
    ensures var regs := old(ctx.registers);
            ctx.registers == WithA(regs, GbAlu.Complement(A(regs), regs.flags))
    ensures ctx.ime == old(ctx.ime) && ctx.header == old(ctx.header)
    ensures cycles == 1
  {
    ctx.registers := WithA(ctx.registers, GbAlu.Complement(A(ctx.registers), ctx.registers.flags));
    return 1;
  }

  // ---------------------------------------------------------------------
  // 16-bit arithmetic
  // ---------------------------------------------------------------------

  /** ADD HL,rr: pair 3 means SP; H and C from the sum, Z and N kept. */
  method AddHlRr(ctx: EmulationState) returns (cycles: byte)
    requires ctx.Valid()
    modifies ctx
    ensures var regs := old(ctx.registers);
            var res := AddWord(HL(regs), GetReg16(regs, PairField(regs.instruction), ModeSp), regs.flags);
            ctx.registers == WithHL(regs.(flags := res.flags), res.value)
    ensures ctx.ime == old(ctx.ime) && ctx.header == old(ctx.header)
    ensures cycles == 1
  {
    var rr := PairField(ctx.registers.instruction);
    var rrValue := GetReg16(ctx.registers, rr, ModeSp);
    var res := AddWord(HL(ctx.registers), rrValue, ctx.registers.flags);
    ctx.registers := ctx.registers.(flags := res.flags);
    ctx.registers := WithHL(ctx.registers, res.value);
    return 1;
  }

  /** INC rr: pair 3 means SP; wraps at 0xFFFF. */
  method IncRr(ctx: EmulationState) returns (cycles: byte)
    requires ctx.Valid()
    modifies ctx
    ensures var regs := old(ctx.registers);
            var rr := PairField(regs.instruction);
            ctx.registers == SetReg16(regs, rr, Inc16(GetReg16(regs, rr, ModeSp)), ModeSp)
    ensures ctx.ime == old(ctx.ime) && ctx.header == old(ctx.header)
    ensures cycles == 1
  {
    var rr := PairField(ctx.registers.instruction);
    var rrInc := Inc16(GetReg16(ctx.registers, rr, ModeSp));
    ctx.registers := SetReg16(ctx.registers, rr, rrInc, ModeSp);
    return 1;
  }

  /** DEC rr: pair 3 means SP; wraps at 0. */
  method DecRr(ctx: EmulationState) returns (cycles: byte)
    requires ctx.Valid()
    modifies ctx
    ensures var regs := old(ctx.registers);
            var rr := PairField(regs.instruction);
            ctx.registers == SetReg16(regs, rr, Dec16(GetReg16(regs, rr, ModeSp)), ModeSp)
    ensures ctx.ime == old(ctx.ime) && ctx.header == old(ctx.header)
    ensures cycles == 1
  {
    var rr := PairField(ctx.registers.instruction);
    var rrDec := Dec16(GetReg16(ctx.registers, rr, ModeSp));
    ctx.registers := SetReg16(ctx.registers, rr, rrDec, ModeSp);
    return 1;
  }

  /** ADD SP,dd: SP plus the signed byte at PC; flags kept. */
  method AddSpDd(ctx: EmulationState) returns (cycles: byte)
    requires ctx.Valid()
    modifies ctx
    ensures var regs := old(ctx.registers);
            ctx.registers == regs.(pc := Inc16(regs.pc), sp := AddSigned(regs.sp, ctx.memory[regs.pc]))
    ensures ctx.ime == old(ctx.ime) && ctx.header == old(ctx.header)
    ensures cycles == 1
  {
    var dd := ReadImmediate(ctx);
    ctx.registers := ctx.registers.(sp := AddSigned(ctx.registers.sp, dd));
    return 1;
  }

  /** LD HL,SP+dd: flags kept. */
  method LdHlSpPlusDd(ctx: EmulationState) returns (cycles: byte)
    requires ctx.Valid()
    modifies ctx
    ensures var regs := old(ctx.registers);
            ctx.registers == WithHL(regs.(pc := Inc16(regs.pc)), AddSigned(regs.sp, ctx.memory[regs.pc]))
    ensures ctx.ime == old(ctx.ime) && ctx.header == old(ctx.header)
    ensures cycles == 1
  {
    var dd := ReadImmediate(ctx);
    ctx.registers := WithHL(ctx.registers, AddSigned(ctx.registers.sp, dd));
    return 1;
  }

  // ---------------------------------------------------------------------
  // Rotates on A
  // ---------------------------------------------------------------------

  /** RLCA. */
  method Rlca(ctx: EmulationState) returns (cycles: byte)
    requires ctx.Valid()
    modifies ctx
    ensures var regs := old(ctx.registers);
            ctx.registers == WithA(regs, RotateLeftCircularA(A(regs), regs.flags))
    ensures ctx.ime == old(ctx.ime) && ctx.header == old(ctx.header)
    ensures cycles == 1
  {
    ctx.registers := WithA(ctx.registers, RotateLeftCircularA(A(ctx.registers), ctx.registers.flags));
    return 1;
  }

  /** RLA. */
  method Rla(ctx: EmulationState) returns (cycles: byte)
    requires ctx.Valid()
    modifies ctx
    ensures var regs := old(ctx.registers);
            ctx.registers == WithA(regs, RotateLeftA(A(regs), regs.flags))
    ensures ctx.ime == old(ctx.ime) && ctx.header == old(ctx.header)
    ensures cycles == 1
  {
    ctx.registers := WithA(ctx.registers, RotateLeftA(A(ctx.registers), ctx.registers.flags));
    return 1;
  }

  /** RRCA. */
  method Rrca(ctx: EmulationState) returns (cycles: byte)
    requires ctx.Valid()
    modifies ctx
    ensures var regs := old(ctx.registers);
            ctx.registers == WithA(regs, RotateRightCircularA(A(regs), regs.flags))
    ensures ctx.ime == old(ctx.ime) && ctx.header == old(ctx.header)
    ensures cycles == 1
  {
    ctx.registers := WithA(ctx.registers, RotateRightCircularA(A(ctx.registers), ctx.registers.flags));
    return 1;
  }

  /** RRA. */
  method Rra(ctx: EmulationState) returns (cycles: byte)
    requires ctx.Valid()
    modifies ctx
    ensures var regs := old(ctx.registers);
            ctx.registers == WithA(regs, RotateRightA(A(regs), regs.flags))
    ensures ctx.ime == old(ctx.ime) && ctx.header == old(ctx.header)
    ensures cycles == 1
  {
    ctx.registers := WithA(ctx.registers, RotateRightA(A(ctx.registers), ctx.registers.flags));
    return 1;
  }

  // ---------------------------------------------------------------------
  // CB-prefixed operations
  // ---------------------------------------------------------------------

  /** RL r: the register named by bits 2-0. */
  method RlR(ctx: EmulationState) returns (cycles: byte)
    requires ctx.Valid()
    modifies ctx
    ensures var regs := old(ctx.registers);
            var r := SourceField(regs.instruction);
            var res := RotateLeft(regs.file[r], regs.flags);
            ctx.registers == regs.(file := regs.file[r := res.value], flags := res.flags)
    ensures ctx.ime == old(ctx.ime) && ctx.header == old(ctx.header)
    ensures cycles == 1
  {
    var r := SourceField(ctx.registers.instruction);
    var res := RotateLeft(ctx.GetReg8(r), ctx.registers.flags);
    ctx.registers := ctx.registers.(flags := res.flags);
    ctx.SetReg8(r, res.value);
    return 1;
  }

  /**
   * The bit index of BIT, RES and SET: `INSTRUCTION & 0x38 >> 3` parses as
   * `INSTRUCTION & (0x38 >> 3)`, that is bits 2-0, the operand register.
   */
  function BitIndex(instr: word): (b: nat)
    ensures b < 8 && b == SourceField(instr)
  {
    FieldsAreMasks(instr);
    BitAnd(instr, ShiftRight(0x38, 3), 16)
  }

  /** BIT b,r. */
  method CbBitNR(ctx: EmulationState) returns (cycles: byte)
    requires ctx.Valid()
    modifies ctx
    ensures var regs := old(ctx.registers);
            var r := SourceField(regs.instruction);
            ctx.registers == regs.(flags := TestBit(regs.file[r], BitIndex(regs.instruction), regs.flags))
    ensures ctx.ime == old(ctx.ime) && ctx.header == old(ctx.header)
    ensures cycles == 1
  {
    var r8 := SourceField(ctx.registers.instruction);
    var b3 := BitIndex(ctx.registers.instruction);
    ctx.registers := ctx.registers.(flags := TestBit(ctx.GetReg8(r8), b3, ctx.registers.flags));
    return 1;
  }

  /** RES b,r: exactly one bit of one register byte is cleared. */
  method CbResNR(ctx: EmulationState) returns (cycles: byte)
    requires ctx.Valid()
    modifies ctx
    ensures var regs := old(ctx.registers);
            var r := SourceField(regs.instruction);
            ctx.registers == regs.(file := regs.file[r := ResetBit(regs.file[r], BitIndex(regs.instruction))])
    ensures ctx.ime == old(ctx.ime) && ctx.header == old(ctx.header)
    ensures cycles == 1
  {
    var r8 := SourceField(ctx.registers.instruction);
    var b3 := BitIndex(ctx.registers.instruction);
    ctx.SetReg8(r8, ResetBit(ctx.GetReg8(r8), b3));
    return 1;
  }

  /** SET b,r: exactly one bit of one register byte is set. */
  method CbSetNR(ctx: EmulationState) returns (cycles: byte)
    requires ctx.Valid()
    modifies ctx
    ensures var regs := old(ctx.registers);
            var r := SourceField(regs.instruction);
            ctx.registers == regs.(file := regs.file[r := SetBit(regs.file[r], BitIndex(regs.instruction))])
    ensures ctx.ime == old(ctx.ime) && ctx.header == old(ctx.header)
    ensures cycles == 1
  {
    var r8 := SourceField(ctx.registers.instruction);
    var b3 := BitIndex(ctx.registers.instruction);
    ctx.SetReg8(r8, SetBit(ctx.GetReg8(r8), b3));
    return 1;
  }

  /** The CB operation a second opcode byte selects. */
  datatype CbOp = Rlc | Rrc | Rl | Rr | Sla | Sra | Swap | Srl | BitTest | BitReset | BitSet

  /**
   * The CB dispatch: a byte with bit 7 or bit 6 set selects by `cb & 0xC0`
   * (0x40 BIT, 0x80 RES, 0xC0 SET); otherwise `cb & 0xF8` selects one of the
   * eight shift and rotate operations in the order 0x00 to 0x38.  Neither
   * switch can reach its default branch.
   */
  function CbOperation(cb: byte): (op: CbOp)
    ensures cb >= 0x40 <==> op in {BitTest, BitReset, BitSet}
    ensures op == BitTest <==> 0x40 <= cb < 0x80
    ensures op == BitReset <==> 0x80 <= cb < 0xC0
    ensures op == BitSet <==> 0xC0 <= cb
    ensures op == Rl <==> 0x10 <= cb < 0x18
  {
    var group := cb / 0x40;
    if group == 1 then BitTest
    else if group == 2 then BitReset
    else if group == 3 then BitSet
    else
      var row := cb / 8;
      if row == 0 then Rlc
      else if row == 1 then Rrc
      else if row == 2 then Rl
      else if row == 3 then Rr
      else if row == 4 then Sla
      else if row == 5 then Sra
      else if row == 6 then Swap
      else Srl
  }

  /** `cb & 0xC0` and `cb & 0xF8` are the multiples of 0x40 and 8 that the dispatch divides by. */
  lemma CbMasks(cb: byte)
    ensures BitAnd(cb, 0xC0, 8) == 0x40 * (cb / 0x40)
    ensures BitAnd(cb, 0xF8, 8) == 8 * (cb / 8)
  {
    CbRowMask(cb);
    CbColumnMask(cb);
  }

  /** `cb & 0xC0` keeps the multiple of 0x40 below `cb`. */
  lemma CbRowMask(cb: byte)
    ensures BitAnd(cb, 0xC0, 8) == 0x40 * (cb / 0x40)
  {
    var q3 := cb / 8;
    var q6 := q3 / 8;
    AndLowZeros(cb, 0xC0, 8);
    AndLowZeros(q3, 0x18, 5);
    AndOnes(q6, 2);
    EighthOfEighth(cb);
    assert BitAnd(cb, 0xC0, 8) == 64 * BitAnd(q6, 3, 2);
  }

  /** Dividing by 8 twice divides by 0x40. */
  lemma EighthOfEighth(n: nat)
    ensures n / 8 / 8 == n / 0x40
  {
    var h, r := n / 0x40, n % 0x40;
    assert n == 0x40 * h + r;
    assert n / 8 == 8 * h + r / 8;
  }

  /** `cb & 0xF8` keeps the multiple of 8 below `cb`. */
  lemma CbColumnMask(cb: byte)
    ensures BitAnd(cb, 0xF8, 8) == 8 * (cb / 8)
  {
    AndLowZeros(cb, 0xF8, 8);
    AndOnes(cb / 8, 5);
  }

  /** A mask whose three low bits are clear drops the three low bits of `a`. */
  lemma AndLowZeros(a: nat, m: nat, width: nat)
    requires width >= 3 && m % 8 == 0
    ensures BitAnd(a, m, width) == 8 * BitAnd(a / 8, m / 8, width - 3)
  {
    var a1, m1 := a / 2, m / 2;
    var a2, m2 := a1 / 2, m1 / 2;
    assert a2 / 2 == a / 8 && m2 / 2 == m / 8;
    assert BitAnd(a, m, width) == 2 * BitAnd(a1, m1, width - 1);
    assert BitAnd(a1, m1, width - 1) == 2 * BitAnd(a2, m2, width - 2);
    assert BitAnd(a2, m2, width - 2) == 2 * BitAnd(a2 / 2, m2 / 2, width - 3);
  }

  /** And with all ones below the width keeps the number, when it fits. */
  lemma {:induction false} AndOnes(x: nat, width: nat)
    requires x < Pow2(width)
    ensures BitAnd(x, Pow2(width) - 1, width) == x
  {
    if width > 0 {
      AndOnes(x / 2, width - 1);
      assert (Pow2(width) - 1) / 2 == Pow2(width - 1) - 1;
    }
  }

  /** The shift and rotate operations that only log: the state is left as it is. */
  method LogOnly(ctx: EmulationState) returns (cycles: byte)
    ensures cycles == 1
  {
    return 1;
  }

  /**
   * CB prefix: the byte at PC becomes INSTRUCTION and PC advances by one;
   * the selected operation then runs on it, and the result is always 1.
   */
  method CbPrefix(ctx: EmulationState) returns (cycles: byte)
    requires ctx.Valid()
    modifies ctx
    ensures var regs := old(ctx.registers);
            var cb := ctx.memory[regs.pc];
            var entered := regs.(pc := Inc16(regs.pc), instruction := cb);
            var r := SourceField(cb);
            ctx.registers == match CbOperation(cb)
              case BitTest => entered.(flags := TestBit(entered.file[r], BitIndex(cb), entered.flags))
              case BitReset => entered.(file := entered.file[r := ResetBit(entered.file[r], BitIndex(cb))])
              case BitSet => entered.(file := entered.file[r := SetBit(entered.file[r], BitIndex(cb))])
              case Rl =>
                var res := RotateLeft(entered.file[r], entered.flags);
                entered.(file := entered.file[r := res.value], flags := res.flags)
              case _ => entered
    ensures ctx.ime == old(ctx.ime) && ctx.header == old(ctx.header)
    ensures cycles == 1
  {
    var cbInstr := ReadImmediate(ctx);
    ctx.registers := ctx.registers.(instruction := cbInstr);
    CbMasks(cbInstr);
    var op := CbOperation(cbInstr);
    match op {
      case BitTest => cycles := CbBitNR(ctx);
      case BitReset => cycles := CbResNR(ctx);
      case BitSet => cycles := CbSetNR(ctx);
      case Rl => cycles := RlR(ctx);
      case _ => cycles := LogOnly(ctx);
    }
    return 1;
  }

  // ---------------------------------------------------------------------
  // CPU control
  // ---------------------------------------------------------------------

  /** CCF. */
  method Ccf(ctx: EmulationState) returns (cycles: byte)
    requires ctx.Valid()
    modifies ctx
    ensures ctx.registers == old(ctx.registers).(flags := ComplementCarry(old(ctx.registers.flags)))
    ensures ctx.ime == old(ctx.ime) && ctx.header == old(ctx.header)
    ensures cycles == 1
  {
    ctx.registers := ctx.registers.(flags := ComplementCarry(ctx.registers.flags));
    return 1;
  }

  /** SCF. */
  method Scf(ctx: EmulationState) returns (cycles: byte)
    requires ctx.Valid()
    modifies ctx
    ensures ctx.registers == old(ctx.registers).(flags := SetCarry(old(ctx.registers.flags)))
    ensures ctx.ime == old(ctx.ime) && ctx.header == old(ctx.header)
    ensures cycles == 1
  {
    ctx.registers := ctx.registers.(flags := SetCarry(ctx.registers.flags));
    return 1;
  }

  /** NOP. */
  method Nop(ctx: EmulationState) returns (cycles: byte)
    ensures cycles == 4
  {
    return 4;
  }

  /** HALT and STOP: nothing changes and 0 is returned, which stops the emulation loop. */
  method Halt(ctx: EmulationState) returns (cycles: byte)
    ensures cycles == 0
  {
    return 0;
  }

  method Stop(ctx: EmulationState) returns (cycles: byte)
    ensures cycles == 0
  {
    return 0;
  }

  /** DI: IME := 0. */
  method Di(ctx: EmulationState) returns (cycles: byte)
    modifies ctx
    ensures !ctx.ime && ctx.registers == old(ctx.registers) && ctx.header == old(ctx.header)
    ensures cycles == 1
  {
    ctx.ime := false;
    return 1;
  }

  /** EI: IME := 1. */
  method Ei(ctx: EmulationState) returns (cycles: byte)
    modifies ctx
    ensures ctx.ime && ctx.registers == old(ctx.registers) && ctx.header == old(ctx.header)
    ensures cycles == 1
  {
    ctx.ime := true;
    return 1;
  }

  // ---------------------------------------------------------------------
  // Jumps, calls and returns
  // ---------------------------------------------------------------------

  /** JP nn. */
  method JpNn(ctx: EmulationState) returns (cycles: byte)
    requires ctx.Valid()
    modifies ctx
    ensures var regs := old(ctx.registers);
            ctx.registers == regs.(pc := U8ToU16(ctx.memory[regs.pc], ctx.memory[Inc16(regs.pc)]))
    ensures ctx.ime == old(ctx.ime) && ctx.header == old(ctx.header)
    ensures cycles == 4
  {
    var nn := ReadImmediateWord(ctx);
    ctx.registers := ctx.registers.(pc := nn);
    return 4;
  }

  /** JP HL. */
  method JpHl(ctx: EmulationState) returns (cycles: byte)
    requires ctx.Valid()
    modifies ctx
    ensures ctx.registers == old(ctx.registers).(pc := HL(old(ctx.registers)))
    ensures ctx.ime == old(ctx.ime) && ctx.header == old(ctx.header)
    ensures cycles == 1
  {
    ctx.registers := ctx.registers.(pc := HL(ctx.registers));
    return 1;
  }

  /**
   * JP cc,nn as written: when the condition holds, PC := nn; otherwise
   * nothing changes, and PC is left on the operand bytes.
   */
  method JpCcNn(ctx: EmulationState) returns (cycles: byte)
    requires ctx.Valid()
    modifies ctx
    ensures var regs := old(ctx.registers);
            if ResolveCondition(regs, CondField(regs.instruction)) != 0 then
              ctx.registers == regs.(pc := U8ToU16(ctx.memory[regs.pc], ctx.memory[Inc16(regs.pc)])) && cycles == 4
            else
              ctx.registers == regs && cycles == 3
    ensures ctx.ime == old(ctx.ime) && ctx.header == old(ctx.header)
  {
    var cc := CondField(ctx.registers.instruction);
    if ResolveCondition(ctx.registers, cc) != 0 {
      var nn := ReadImmediateWord(ctx);
      ctx.registers := ctx.registers.(pc := nn);
      return 4;
    }
    return 3;
  }

  /**
   * JP cc,nn as its pseudo-code describes: both operand bytes are read first,
   * so PC ends past them whether or not the jump is taken.
   */
  method JpCcNnReference(ctx: EmulationState) returns (cycles: byte)
    requires ctx.Valid()
    modifies ctx
    ensures var regs := old(ctx.registers);
            if ResolveCondition(regs, CondField(regs.instruction)) != 0 then
              ctx.registers == regs.(pc := U8ToU16(ctx.memory[regs.pc], ctx.memory[Inc16(regs.pc)])) && cycles == 4
            else
              ctx.registers == regs.(pc := Inc16(Inc16(regs.pc))) && cycles == 3
    ensures ctx.ime == old(ctx.ime) && ctx.header == old(ctx.header)
  {
    var taken := ResolveCondition(ctx.registers, CondField(ctx.registers.instruction)) != 0;
    var nn := ReadImmediateWord(ctx);
    if taken {
      ctx.registers := ctx.registers.(pc := nn);
      return 4;
    }
    return 3;
  }

  /** JR e: PC, already past the offset byte, moves by the signed offset. */
  method JrE(ctx: EmulationState) returns (cycles: byte)
    requires ctx.Valid()
    modifies ctx
    ensures var regs := old(ctx.registers);
            ctx.registers == regs.(pc := AddSigned(Inc16(regs.pc), ctx.memory[regs.pc]))
    ensures ctx.ime == old(ctx.ime) && ctx.header == old(ctx.header)
    ensures cycles == 3
  {
    var e := ReadImmediate(ctx);
    ctx.registers := ctx.registers.(pc := AddSigned(ctx.registers.pc, e));
    return 3;
  }

  /** JR cc,e: the offset byte is consumed whether or not the condition holds. */
  method JrCcE(ctx: EmulationState) returns (cycles: byte)
    requires ctx.Valid()
    modifies ctx
    ensures var regs := old(ctx.registers);
            if ResolveCondition(regs, CondField(regs.instruction)) != 0 then
              ctx.registers == regs.(pc := AddSigned(Inc16(regs.pc), ctx.memory[regs.pc])) && cycles == 3
            else
              ctx.registers == regs.(pc := Inc16(regs.pc)) && cycles == 2
    ensures ctx.ime == old(ctx.ime) && ctx.header == old(ctx.header)
  {
    var cc := CondField(ctx.registers.instruction);
    var e := ReadImmediate(ctx);
    if ResolveCondition(ctx.registers, cc) != 0 {
      ctx.registers := ctx.registers.(pc := AddSigned(ctx.registers.pc, e));
      return 3;
    }
    return 2;
  }

  /**
   * CALL nn: the address after the operands is pushed (high byte at SP - 1,
   * low byte at SP - 2), SP is lowered by two and PC := nn.
   */
  method CallNn(ctx: EmulationState) returns (cycles: byte)
    requires ctx.Valid()
    modifies ctx, ctx.memory
    ensures var regs := old(ctx.registers);
            var ret := Inc16(Inc16(regs.pc));
            ctx.registers == regs.(pc := U8ToU16(old(ctx.memory[regs.pc]), old(ctx.memory[Inc16(regs.pc)])), sp := Dec16(Dec16(regs.sp)))
            && ctx.memory[..] == old(ctx.memory[..])[Dec16(regs.sp) := Msb(ret)][Dec16(Dec16(regs.sp)) := Lsb(ret)]
    ensures ctx.ime == old(ctx.ime) && ctx.header == old(ctx.header)
    ensures cycles == 6
  {
    var addr := ReadImmediateWord(ctx);
    ctx.registers := ctx.registers.(sp := Dec16(ctx.registers.sp));
    ctx.memory[ctx.registers.sp] := Msb(ctx.registers.pc);
    ctx.registers := ctx.registers.(sp := Dec16(ctx.registers.sp));
    ctx.memory[ctx.registers.sp] := Lsb(ctx.registers.pc);
    ctx.registers := ctx.registers.(pc := addr);
    return 6;
  }

  /**
   * CALL cc,nn as written: as CALL nn when the condition holds; otherwise
   * nothing changes, and PC is left on the operand bytes.
   */
  method CallCcNn(ctx: EmulationState) returns (cycles: byte)
    requires ctx.Valid()
    modifies ctx, ctx.memory
    ensures var regs := old(ctx.registers);
            var ret := Inc16(Inc16(regs.pc));
            if ResolveCondition(regs, CondField(regs.instruction)) != 0 then
              ctx.registers == regs.(pc := U8ToU16(old(ctx.memory[regs.pc]), old(ctx.memory[Inc16(regs.pc)])), sp := Dec16(Dec16(regs.sp)))
              && ctx.memory[..] == old(ctx.memory[..])[Dec16(regs.sp) := Msb(ret)][Dec16(Dec16(regs.sp)) := Lsb(ret)]
              && cycles == 6
            else
              ctx.registers == regs && ctx.memory[..] == old(ctx.memory[..]) && cycles == 3
    ensures ctx.ime == old(ctx.ime) && ctx.header == old(ctx.header)
  {
    var cc := CondField(ctx.registers.instruction);
    if ResolveCondition(ctx.registers, cc) != 0 {
      cycles := CallNn(ctx);
      return 6;
    }
    return 3;
  }

  /**
   * CALL cc,nn as its pseudo-code describes: both operand bytes are read
   * first, so when the condition fails PC still ends past them.
   */
  method CallCcNnReference(ctx: EmulationState) returns (cycles: byte)
    requires ctx.Valid()
    modifies ctx, ctx.memory
    ensures var regs := old(ctx.registers);
            var ret := Inc16(Inc16(regs.pc));
            if ResolveCondition(regs, CondField(regs.instruction)) != 0 then
              ctx.registers == regs.(pc := U8ToU16(old(ctx.memory[regs.pc]), old(ctx.memory[Inc16(regs.pc)])), sp := Dec16(Dec16(regs.sp)))
              && ctx.memory[..] == old(ctx.memory[..])[Dec16(regs.sp) := Msb(ret)][Dec16(Dec16(regs.sp)) := Lsb(ret)]
              && cycles == 6
            else
              ctx.registers == regs.(pc := ret) && ctx.memory[..] == old(ctx.memory[..]) && cycles == 3
    ensures ctx.ime == old(ctx.ime) && ctx.header == old(ctx.header)
  {
    var taken := ResolveCondition(ctx.registers, CondField(ctx.registers.instruction)) != 0;
    var addr := ReadImmediateWord(ctx);
    if taken {
      ctx.registers := ctx.registers.(sp := Dec16(ctx.registers.sp));
      ctx.memory[ctx.registers.sp] := Msb(ctx.registers.pc);
      ctx.registers := ctx.registers.(sp := Dec16(ctx.registers.sp));
      ctx.memory[ctx.registers.sp] := Lsb(ctx.registers.pc);
      ctx.registers := ctx.registers.(pc := addr);
      return 6;
    }
    return 3;
  }

  /** RET: PC from the low byte at SP and the high byte at SP + 1; SP raised by two. */
  method Ret(ctx: EmulationState) returns (cycles: byte)
    requires ctx.Valid()
    modifies ctx
    ensures var regs := old(ctx.registers);
            ctx.registers == regs.(pc := U8ToU16(ctx.memory[regs.sp], ctx.memory[Inc16(regs.sp)]), sp := Inc16(Inc16(regs.sp)))
    ensures ctx.ime == old(ctx.ime) && ctx.header == old(ctx.header)
    ensures cycles == 4
  {
    var lsb := ctx.memory[ctx.registers.sp];
    ctx.registers := ctx.registers.(sp := Inc16(ctx.registers.sp));
    var msb := ctx.memory[ctx.registers.sp];
    ctx.registers := ctx.registers.(sp := Inc16(ctx.registers.sp));
    U8ToU16IsBitwiseOr(lsb, msb);
    ctx.registers := ctx.registers.(pc := U8ToU16(lsb, msb));
    return 4;
  }

  /** RET cc: as RET when the condition holds; otherwise nothing changes. */
  method RetCc(ctx: EmulationState) returns (cycles: byte)
    requires ctx.Valid()
    modifies ctx
    ensures var regs := old(ctx.registers);
            if ResolveCondition(regs, CondField(regs.instruction)) != 0 then
              ctx.registers == regs.(pc := U8ToU16(ctx.memory[regs.sp], ctx.memory[Inc16(regs.sp)]), sp := Inc16(Inc16(regs.sp)))
              && cycles == 5
            else
              ctx.registers == regs && cycles == 2
    ensures ctx.ime == old(ctx.ime) && ctx.header == old(ctx.header)
  {
    var cc := CondField(ctx.registers.instruction);
    if ResolveCondition(ctx.registers, cc) != 0 {
      var _ := Ret(ctx);
      return 5;
    }
    return 2;
  }

  /** RETI: RET, then IME := 1. */
  method Reti(ctx: EmulationState) returns (cycles: byte)
    requires ctx.Valid()
    modifies ctx
    ensures var regs := old(ctx.registers);
            ctx.registers == regs.(pc := U8ToU16(ctx.memory[regs.sp], ctx.memory[Inc16(regs.sp)]), sp := Inc16(Inc16(regs.sp)))
    ensures ctx.ime && ctx.header == old(ctx.header)
    ensures cycles == 4
  {
    var _ := Ret(ctx);
    ctx.ime := true;
    return 4;
  }

  // ---------------------------------------------------------------------
  // Round trips
  // ---------------------------------------------------------------------

  /** PUSH rr followed by POP rr restores the pair and SP. */
  method PushThenPop(ctx: EmulationState) returns (cycles: byte)
    requires ctx.Valid()
    modifies ctx, ctx.memory
    ensures var regs := old(ctx.registers);
            var rr := PairField(regs.instruction);
            GetReg16(ctx.registers, rr, ModeAf) == GetReg16(regs, rr, ModeAf)
            && ctx.registers.sp == regs.sp
            && ctx.registers == SetReg16(regs, rr, GetReg16(regs, rr, ModeAf), ModeAf)
    ensures cycles == 1
  {
    var regs := ctx.registers;
    var rr := PairField(regs.instruction);
    var v := GetReg16(regs, rr, ModeAf);
    var _ := PushRr(ctx);
    assert ctx.memory[Dec16(Dec16(regs.sp))] == Lsb(v);
    assert ctx.memory[Dec16(regs.sp)] == Msb(v);
    cycles := PopRr(ctx);
    U8ToU16Inverse(v);
  }

  /** CALL nn followed by RET comes back to the address after the CALL's operands with SP restored. */
  method CallThenRet(ctx: EmulationState) returns (cycles: byte)
    requires ctx.Valid()
    modifies ctx, ctx.memory
    ensures ctx.registers == old(ctx.registers).(pc := Inc16(Inc16(old(ctx.registers.pc))))
    ensures cycles == 4
  {
    var regs := ctx.registers;
    var ret := Inc16(Inc16(regs.pc));
    var _ := CallNn(ctx);
    assert ctx.memory[Dec16(Dec16(regs.sp))] == Lsb(ret);
    assert ctx.memory[Dec16(regs.sp)] == Msb(ret);
    cycles := Ret(ctx);
    U8ToU16Inverse(ret);
  }
}
