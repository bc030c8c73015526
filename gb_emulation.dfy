/**
 * The Game Boy emulation driver of `GB_Emulation.c`: the first-match opcode
 * table, the fetch that scans it, the tick that fetches, dispatches and stops
 * on an unknown opcode, the power-on state, the memory load and the cartridge
 * header extraction.
 */
module GbEmulation {
  import opened Bits
  import opened Wrappers
  import opened GbRegisterMap
  import opened GbRegisters
  import GbCpu
  import opened GbAlu

  /** The handler an instruction table entry names. */
  datatype Handler =
    | Nop | LdRR | LdRN | LdRHl | LdRrNn | LdNnSp | LdSpHl | PushRr | PopRr
    | AddAR | AddAN | AddAHl | AdcAR | AdcAN | AdcAHl
    | SubR | SubN | SubHl | SbcAR | SbcAN | SbcAHl
    | AndR | AndN | AndHl | XorR | XorN | XorHl | OrR | OrN | OrHl | CpR | CpN | CpHl
    | IncR | IncHl | DecR | DecHl | Daa | Cpl
    | AddHlRr | IncRr | DecRr | AddSpDd | LdHlSpPlusDd
    | Ccf | Scf | Halt | Stop | Di | Ei

  /** A table entry: an opcode selects it when `opcode & mask == pattern`. */
  datatype Instruction = Instruction(mask: bv16, pattern: bv16, handler: Handler)

  /** The number of entries the table initialiser lists. */
  const InstructionSetLength: nat := 51

  /**
   * Entry `i` of `s_gb_instruction_set`, in declaration order (the commented
   * out jump entries are not part of it).
   */
  function InstructionAt(i: nat): (e: Instruction)
    requires i < InstructionSetLength
    ensures 0 < e.mask <= 0xFF && e.pattern <= 0xFF
  {
    if i < 25 then
      if i < 12 then
        if i < 6 then
          if i < 3 then
            if i < 1 then Instruction(0xFF, 0x00, Nop)
            else if i < 2 then Instruction(0xC0, 0x40, LdRR)
            else Instruction(0xC7, 0x06, LdRN)
          else if i < 4 then Instruction(0xC7, 0x46, LdRHl)
          else if i < 5 then Instruction(0xCF, 0x01, LdRrNn)
          else Instruction(0xFF, 0x08, LdNnSp)
        else if i < 9 then
          if i < 7 then Instruction(0xFF, 0xF9, LdSpHl)
          else if i < 8 then Instruction(0xCF, 0xC5, PushRr)
          else Instruction(0xCF, 0xC1, PopRr)
        else if i < 10 then Instruction(0xF8, 0x80, AddAR)
        else if i < 11 then Instruction(0xFF, 0xC6, AddAN)
        else Instruction(0xFF, 0x86, AddAHl)
      else if i < 18 then
        if i < 15 then
          if i < 13 then Instruction(0xF8, 0x88, AdcAR)
          else if i < 14 then Instruction(0xFF, 0x08, AdcAN)
          else Instruction(0xFF, 0x8E, AdcAHl)
        else if i < 16 then Instruction(0xF8, 0x90, SubR)
        else if i < 17 then Instruction(0xFF, 0x10, SubN)
        else Instruction(0xFF, 0x96, SubHl)
      else if i < 21 then
        if i < 19 then Instruction(0xF8, 0x98, SbcAR)
        else if i < 20 then Instruction(0xFF, 0x18, SbcAN)
        else Instruction(0xFF, 0x9E, SbcAHl)
      else if i < 23 then
        if i < 22 then Instruction(0xF8, 0xA0, AndR)
        else Instruction(0xFF, 0x20, AndN)
      else if i < 24 then Instruction(0xFF, 0xA6, AndHl)
      else Instruction(0xF8, 0xA8, XorR)
    else if i < 38 then
      if i < 31 then
        if i < 28 then
          if i < 26 then Instruction(0xFF, 0x28, XorN)
          else if i < 27 then Instruction(0xFF, 0xAE, XorHl)
          else Instruction(0xF8, 0xB0, OrR)
        else if i < 29 then Instruction(0xFF, 0x30, OrN)
        else if i < 30 then Instruction(0xFF, 0xB6, OrHl)
        else Instruction(0xF8, 0xB8, CpR)
      else if i < 34 then
        if i < 32 then Instruction(0xFF, 0x38, CpN)
        else if i < 33 then Instruction(0xFF, 0xBE, CpHl)
        else Instruction(0xF8, 0x04, IncR)
      else if i < 36 then
        if i < 35 then Instruction(0xFF, 0x34, IncHl)
        else Instruction(0xF8, 0x05, DecR)
      else if i < 37 then Instruction(0xFF, 0x35, DecHl)
      else Instruction(0xFF, 0x27, Daa)
    else if i < 44 then
      if i < 41 then
        if i < 39 then Instruction(0xFF, 0x2F, Cpl)
        else if i < 40 then Instruction(0xCF, 0x09, AddHlRr)
        else Instruction(0xCF, 0x03, IncRr)
      else if i < 42 then Instruction(0xCB, 0x0B, DecRr)
      else if i < 43 then Instruction(0xFF, 0xE8, AddSpDd)
      else Instruction(0xFF, 0xF8, LdHlSpPlusDd)
    else if i < 47 then
      if i < 45 then Instruction(0xFF, 0x00, Nop)
      else if i < 46 then Instruction(0xFF, 0x3F, Ccf)
      else Instruction(0xFF, 0x37, Scf)
    else if i < 49 then
      if i < 48 then Instruction(0xFF, 0x76, Halt)
      else Instruction(0xFF, 0x10, Stop)
    else if i < 50 then Instruction(0xFF, 0xF3, Di)
    else Instruction(0xFF, 0xFB, Ei)
  }

  /** `(opcode & maskl) == opcode` of the fetch loop, with the opcode byte widened to sixteen bits. */
  predicate Matches(e: Instruction, opcode: bv8)
  {
    (opcode as bv16) & e.mask == e.pattern
  }

  /** Entry `i` of the table selects the opcode. */
  predicate EntrySelects(opcode: bv8, i: nat)
  {
    i < InstructionSetLength && Matches(InstructionAt(i), opcode)
  }

  /** The first entry at or after `i` that an opcode selects, scanning in declaration order. */
  function FirstMatchFrom(opcode: bv8, i: nat): (r: Option<nat>)
    decreases InstructionSetLength - i
    ensures r.Some? ==> i <= r.value < InstructionSetLength
  {
    if i >= 51 then None
    else if EntrySelects(opcode, i) then Some(i)
    else FirstMatchFrom(opcode, i + 1)
  }

  /**
   * The scan finds an entry that matches with no matching entry before it,
   * and finds none exactly when no entry from `i` on matches.
   */
  lemma FirstMatchFromIsFirst(opcode: bv8, i: nat)
    ensures var r := FirstMatchFrom(opcode, i);
            (r.Some? ==> i <= r.value < InstructionSetLength && EntrySelects(opcode, r.value))
            && (r.Some? ==> forall j | i <= j < r.value :: !EntrySelects(opcode, j))
            && (r.None? <==> forall j | i <= j < InstructionSetLength :: !EntrySelects(opcode, j))
  {
    FoundEntryIsFirst(opcode, i);
    NoneFoundMeansNoMatch(opcode, i);
  }

  /** A found entry matches, and no entry between `i` and it does. */
  lemma {:induction false} FoundEntryIsFirst(opcode: bv8, i: nat)
    ensures var r := FirstMatchFrom(opcode, i);
            r.Some? ==> EntrySelects(opcode, r.value)
                        && forall j | i <= j < r.value :: !EntrySelects(opcode, j)
    decreases InstructionSetLength - i
  {
    if i < InstructionSetLength && !EntrySelects(opcode, i) {
      FoundEntryIsFirst(opcode, i + 1);
    }
  }

  /** The scan from `i` finds nothing exactly when no entry from `i` on matches. */
  lemma {:induction false} NoneFoundMeansNoMatch(opcode: bv8, i: nat)
    ensures FirstMatchFrom(opcode, i).None? <==> forall j | i <= j < InstructionSetLength :: !EntrySelects(opcode, j)
    decreases InstructionSetLength - i
  {
    if i < InstructionSetLength && !EntrySelects(opcode, i) {
      NoneFoundMeansNoMatch(opcode, i + 1);
    }
  }

  /** The entry `GB_FetchInstruction` is meant to return: the first match in declaration order. */
  function FirstMatch(opcode: bv8): (r: Option<nat>)
    ensures r.Some? ==> r.value < InstructionSetLength && EntrySelects(opcode, r.value)
    ensures r.Some? ==> forall j | 0 <= j < r.value :: !EntrySelects(opcode, j)
    ensures r.None? <==> forall j | 0 <= j < InstructionSetLength :: !EntrySelects(opcode, j)
  {
    FirstMatchFromIsFirst(opcode, 0);
    FirstMatchFrom(opcode, 0)
  }

  /**
   * `GB_FetchInstruction`: scans the entries in order and returns the first
   * whose mask and match select the opcode, or none.  The loop of the source
   * runs to `i <= GB_INSTRUCTION_SET_LENGHT` and so reads one slot past the
   * table; this scan stops at the last entry.
   */
  method FetchInstruction(opcode: bv8) returns (entry: Option<Instruction>)
    ensures entry.Some? <==> FirstMatch(opcode).Some?
    ensures entry.Some? ==> entry.value == InstructionAt(FirstMatch(opcode).value)
    ensures entry.Some? ==> Matches(entry.value, opcode)
  {
    var i := 0;
    while i < InstructionSetLength
      invariant 0 <= i <= InstructionSetLength
      invariant FirstMatchFrom(opcode, i) == FirstMatch(opcode)
    {
      if EntrySelects(opcode, i) {
        return Some(InstructionAt(i));
      }
      i := i + 1;
    }
    return None;
  }

  /** An entry that matches with no match before it is the one the scan finds. */
  lemma {:induction false} SelectsEntry(opcode: bv8, i: nat, k: nat)
    requires i <= k < InstructionSetLength && EntrySelects(opcode, k)
    requires forall j | i <= j < k :: !EntrySelects(opcode, j)
    ensures FirstMatchFrom(opcode, i) == Some(k)
    decreases k - i
  {
    if i < k { SelectsEntry(opcode, i + 1, k); }
  }

  /** When no entry from `i` on matches, the scan finds none. */
  lemma {:induction false} SelectsNothing(opcode: bv8, i: nat)
    requires i <= InstructionSetLength
    requires forall j | i <= j < InstructionSetLength :: !EntrySelects(opcode, j)
    ensures FirstMatchFrom(opcode, i) == None
    decreases InstructionSetLength - i
  {
    if i < InstructionSetLength { SelectsNothing(opcode, i + 1); }
  }

  /**
   * Declaration order decides overlapping entries: 0x76 selects LD r,r' and
   * never HALT, 0x08 selects LD (nn),SP and not the ADC A,n entry, 0x10
   * selects the SUB n entry and not STOP, and 0x00 the first NOP.
   */
  lemma OverlapsResolveInOrder()
    ensures FirstMatch(0x76) == Some(1) && InstructionAt(1).handler == LdRR
    ensures FirstMatch(0x08) == Some(5) && InstructionAt(5).handler == LdNnSp
    ensures FirstMatch(0x10) == Some(16) && InstructionAt(16).handler == SubN
    ensures FirstMatch(0x00) == Some(0) && InstructionAt(0).handler == Nop
  {
    SelectsEntry(0x76, 0, 1);
    SelectsEntry(0x08, 0, 5);
    SelectsEntry(0x10, 0, 16);
    SelectsEntry(0x00, 0, 0);
  }

  /** With the jump entries commented out, JP nn, RET, CALL nn and the CB prefix are unknown. */
  lemma JumpUnknown()
    ensures FirstMatch(0xC3) == None
  {
    SelectsNothing(0xC3, 0);
  }

  /** RET, 0xC9, is unknown to the table. */
  lemma ReturnUnknown()
    ensures FirstMatch(0xC9) == None
  {
    SelectsNothing(0xC9, 0);
  }

  /** CALL nn, 0xCD, is unknown to the table. */
  lemma CallUnknown()
    ensures FirstMatch(0xCD) == None
  {
    SelectsNothing(0xCD, 0);
  }

  /** The 0xCB prefix is unknown to the table, so no CB instruction runs. */
  lemma CbPrefixUnknown()
    ensures FirstMatch(0xCB) == None
  {
    SelectsNothing(0xCB, 0);
  }

  /**
   * The mask 0xCB of the DEC rr entry leaves bit 2 free, so it also selects
   * 0x3F and CCF is never reached; 0x36, LD (HL),n, is taken by LD r,n, and
   * 0x86, ADD A,(HL), by ADD A,r.
   */
  lemma MaskOverreach()
    ensures FirstMatch(0x3F) == Some(41) && InstructionAt(41).handler == DecRr
    ensures FirstMatch(0x36) == Some(2) && InstructionAt(2).handler == LdRN
    ensures FirstMatch(0x86) == Some(9) && InstructionAt(9).handler == AddAR
  {
    SelectsEntry(0x3F, 0, 41);
    SelectsEntry(0x36, 0, 2);
    SelectsEntry(0x86, 0, 9);
  }

  /** An entry whose match has bits outside its mask can never match: INC r and DEC r. */
  lemma DeadEntries(opcode: bv8)
    ensures !EntrySelects(opcode, 33)
    ensures !EntrySelects(opcode, 35)
  {
    var b := opcode as bv16;
    assert b & 0xF8 != 0x04 && b & 0xF8 != 0x05 by {
      assert (b & 0xF8) & 0x07 == 0;
    }
  }

  /** Each shadowed entry implies an earlier one matching the same opcode. */
  lemma ShadowingEntries(opcode: bv8)
    ensures EntrySelects(opcode, 3) ==> EntrySelects(opcode, 1)
    ensures EntrySelects(opcode, 11) ==> EntrySelects(opcode, 9)
    ensures EntrySelects(opcode, 13) ==> EntrySelects(opcode, 5)
    ensures EntrySelects(opcode, 14) ==> EntrySelects(opcode, 12)
    ensures EntrySelects(opcode, 17) ==> EntrySelects(opcode, 15)
    ensures EntrySelects(opcode, 20) ==> EntrySelects(opcode, 18)
    ensures EntrySelects(opcode, 23) ==> EntrySelects(opcode, 21)
    ensures EntrySelects(opcode, 26) ==> EntrySelects(opcode, 24)
    ensures EntrySelects(opcode, 29) ==> EntrySelects(opcode, 27)
    ensures EntrySelects(opcode, 32) ==> EntrySelects(opcode, 30)
    ensures EntrySelects(opcode, 44) ==> EntrySelects(opcode, 0)
    ensures EntrySelects(opcode, 45) ==> EntrySelects(opcode, 41)
    ensures EntrySelects(opcode, 47) ==> EntrySelects(opcode, 1)
    ensures EntrySelects(opcode, 48) ==> EntrySelects(opcode, 16)
  {
  }

  /** The entries no opcode ever selects. */
  predicate NeverSelected(k: nat)
  {
    k in {3, 11, 13, 14, 17, 20, 23, 26, 29, 32, 33, 35, 44, 45, 47, 48}
  }

  /**
   * Sixteen of the 51 entries are never returned by the fetch: the (HL)
   * forms of the eight-bit ALU, LD r,(HL), the ADC A,n entry, INC r and
   * DEC r, the second NOP, CCF, HALT and STOP.
   */
  lemma {:induction false} UnreachableEntries(opcode: bv8)
    ensures FirstMatch(opcode).Some? ==> !NeverSelected(FirstMatch(opcode).value)
  {
    FirstMatchFromIsFirst(opcode, 0);
    DeadEntries(opcode);
    ShadowingEntries(opcode);
  }

  /** The count each handler returns. */
  function CycleCount(h: Handler): (c: byte)
    ensures c == 0 <==> h == Halt || h == Stop
    ensures c <= 8
  {
    match h
    case Nop | LdRR | AddAR | AdcAR => 4
    case LdRN | LdRHl | AddAHl | AdcAN | AdcAHl => 8
    case LdRrNn => 2
    case Halt | Stop => 0
    case _ => 1
  }

  /** Only HALT and STOP return 0, and neither is ever selected. */
  lemma {:induction false} SelectedHandlersNeverStop(opcode: bv8)
    ensures FirstMatch(opcode).Some? ==> CycleCount(InstructionAt(FirstMatch(opcode).value).handler) > 0
  {
    var r := FirstMatch(opcode);
    if r.Some? {
      UnreachableEntries(opcode);
      HaltAndStopEntries(r.value);
    }
  }

  /** HALT and STOP are entries 47 and 48 and no others. */
  lemma HaltAndStopEntries(k: nat)
    requires k < InstructionSetLength
    ensures InstructionAt(k).handler == Halt || InstructionAt(k).handler == Stop ==> k == 47 || k == 48
  {
  }

  /** Runs the handler an entry names; the log-only DAA has no effect. */
  method Execute(ctx: EmulationState, h: Handler) returns (cycles: byte)
    requires ctx.Valid()
    modifies ctx, ctx.memory
    ensures cycles == CycleCount(h)
    ensures ctx.registers.instruction == old(ctx.registers.instruction)
    ensures ctx.header == old(ctx.header)
  {
    if LoadHandler(h) {
      cycles := ExecuteLoad(ctx, h);
    } else if StackHandler(h) {
      cycles := ExecuteStack(ctx, h);
    } else if AddHandler(h) {
      cycles := ExecuteAdd(ctx, h);
    } else if AdcHandler(h) {
      cycles := ExecuteAdc(ctx, h);
    } else if SubHandler(h) {
      cycles := ExecuteSub(ctx, h);
    } else if SbcHandler(h) {
      cycles := ExecuteSbc(ctx, h);
    } else if AndHandler(h) {
      cycles := ExecuteAnd(ctx, h);
    } else if XorHandler(h) {
      cycles := ExecuteXor(ctx, h);
    } else if OrHandler(h) {
      cycles := ExecuteOr(ctx, h);
    } else if CompareHandler(h) {
      cycles := ExecuteCompare(ctx, h);
    } else if ByteStepHandler(h) {
      cycles := ExecuteByteStep(ctx, h);
    } else if WordArithmeticHandler(h) {
      cycles := ExecuteWordArithmetic(ctx, h);
    } else if FlagHandler(h) {
      cycles := ExecuteFlag(ctx, h);
    } else {
      cycles := ExecuteControl(ctx, h);
    }
  }

  /** The handlers for the 8-bit loads and LD rr,nn. */
  predicate LoadHandler(h: Handler)
  {
    h.Nop? || h.LdRR? || h.LdRN? || h.LdRHl? || h.LdRrNn?
  }

  /** The handlers for LD (nn),SP, LD SP,HL, PUSH and POP. */
  predicate StackHandler(h: Handler)
  {
    h.LdNnSp? || h.LdSpHl? || h.PushRr? || h.PopRr?
  }

  /** The handlers for ADD on A. */
  predicate AddHandler(h: Handler)
  {
    h.AddAR? || h.AddAN? || h.AddAHl?
  }

  /** The handlers for ADC on A. */
  predicate AdcHandler(h: Handler)
  {
    h.AdcAR? || h.AdcAN? || h.AdcAHl?
  }

  /** The handlers for SUB on A. */
  predicate SubHandler(h: Handler)
  {
    h.SubR? || h.SubN? || h.SubHl?
  }

  /** The handlers for SBC on A. */
  predicate SbcHandler(h: Handler)
  {
    h.SbcAR? || h.SbcAN? || h.SbcAHl?
  }

  /** The handlers for AND on A. */
  predicate AndHandler(h: Handler)
  {
    h.AndR? || h.AndN? || h.AndHl?
  }

  /** The handlers for XOR on A. */
  predicate XorHandler(h: Handler)
  {
    h.XorR? || h.XorN? || h.XorHl?
  }

  /** The handlers for OR on A. */
  predicate OrHandler(h: Handler)
  {
    h.OrR? || h.OrN? || h.OrHl?
  }

  /** The handlers for CP on A. */
  predicate CompareHandler(h: Handler)
  {
    h.CpR? || h.CpN? || h.CpHl?
  }

  /** The handlers for INC and DEC on 8-bit operands. */
  predicate ByteStepHandler(h: Handler)
  {
    h.IncR? || h.IncHl? || h.DecR? || h.DecHl?
  }

  /** The handlers for INC, DEC and ADD on 16-bit operands. */
  predicate WordArithmeticHandler(h: Handler)
  {
    h.IncRr? || h.DecRr? || h.AddHlRr? || h.AddSpDd? || h.LdHlSpPlusDd?
  }

  /** The handlers for CPL, DAA and the carry flag operations. */
  predicate FlagHandler(h: Handler)
  {
    h.Cpl? || h.Daa? || h.Ccf? || h.Scf?
  }

  /** The handlers for the halt and interrupt operations. */
  predicate ControlHandler(h: Handler)
  {
    h.Halt? || h.Stop? || h.Di? || h.Ei?
  }

  /** `Execute` for the 8-bit loads and LD rr,nn. */
  method ExecuteLoad(ctx: EmulationState, h: Handler) returns (cycles: byte)
    requires ctx.Valid() && LoadHandler(h)
    modifies ctx, ctx.memory
    ensures cycles == CycleCount(h)
    ensures ctx.registers.instruction == old(ctx.registers.instruction)
    ensures ctx.header == old(ctx.header)
  {
    match h {
      case Nop => cycles := GbCpu.Nop(ctx);
      case LdRR => cycles := GbCpu.LdRR(ctx);
      case LdRN => cycles := GbCpu.LdRN(ctx);
      case LdRHl => cycles := GbCpu.LdRHl(ctx);
      case LdRrNn => cycles := GbCpu.LdRrNn(ctx);
    }
  }

  /** `Execute` for LD (nn),SP, LD SP,HL, PUSH and POP. */
  method ExecuteStack(ctx: EmulationState, h: Handler) returns (cycles: byte)
    requires ctx.Valid() && StackHandler(h)
    modifies ctx, ctx.memory
    ensures cycles == CycleCount(h)
    ensures ctx.registers.instruction == old(ctx.registers.instruction)
    ensures ctx.header == old(ctx.header)
  {
    match h {
      case LdNnSp => cycles := GbCpu.LdNnSp(ctx);
      case LdSpHl => cycles := GbCpu.LdSpHl(ctx);
      case PushRr => cycles := GbCpu.PushRr(ctx);
      case PopRr => cycles := GbCpu.PopRr(ctx);
    }
  }

  /** `Execute` for ADD on A. */
  method ExecuteAdd(ctx: EmulationState, h: Handler) returns (cycles: byte)
    requires ctx.Valid() && AddHandler(h)
    modifies ctx, ctx.memory
    ensures cycles == CycleCount(h)
    ensures ctx.registers.instruction == old(ctx.registers.instruction)
    ensures ctx.header == old(ctx.header)
  {
    match h {
      case AddAR => cycles := GbCpu.AddAR(ctx);
      case AddAN => cycles := GbCpu.AddAN(ctx);
      case AddAHl => cycles := GbCpu.AddAHl(ctx);
    }
  }

  /** `Execute` for ADC on A. */
  method ExecuteAdc(ctx: EmulationState, h: Handler) returns (cycles: byte)
    requires ctx.Valid() && AdcHandler(h)
    modifies ctx, ctx.memory
    ensures cycles == CycleCount(h)
    ensures ctx.registers.instruction == old(ctx.registers.instruction)
    ensures ctx.header == old(ctx.header)
  {
    match h {
      case AdcAR => cycles := GbCpu.AdcAR(ctx);
      case AdcAN => cycles := GbCpu.AdcAN(ctx);
      case AdcAHl => cycles := GbCpu.AdcAHl(ctx);
    }
  }

  /** `Execute` for SUB on A. */
  method ExecuteSub(ctx: EmulationState, h: Handler) returns (cycles: byte)
    requires ctx.Valid() && SubHandler(h)
    modifies ctx, ctx.memory
    ensures cycles == CycleCount(h)
    ensures ctx.registers.instruction == old(ctx.registers.instruction)
    ensures ctx.header == old(ctx.header)
  {
    match h {
      case SubR => cycles := GbCpu.SubR(ctx);
      case SubN => cycles := GbCpu.SubN(ctx);
      case SubHl => cycles := GbCpu.SubHl(ctx);
    }
  }

  /** `Execute` for SBC on A. */
  method ExecuteSbc(ctx: EmulationState, h: Handler) returns (cycles: byte)
    requires ctx.Valid() && SbcHandler(h)
    modifies ctx, ctx.memory
    ensures cycles == CycleCount(h)
    ensures ctx.registers.instruction == old(ctx.registers.instruction)
    ensures ctx.header == old(ctx.header)
  {
    match h {
      case SbcAR => cycles := GbCpu.SbcAR(ctx);
      case SbcAN => cycles := GbCpu.SbcAN(ctx);
      case SbcAHl => cycles := GbCpu.SbcAHl(ctx);
    }
  }

  /** `Execute` for AND on A. */
  method ExecuteAnd(ctx: EmulationState, h: Handler) returns (cycles: byte)
    requires ctx.Valid() && AndHandler(h)
    modifies ctx, ctx.memory
    ensures cycles == CycleCount(h)
    ensures ctx.registers.instruction == old(ctx.registers.instruction)
    ensures ctx.header == old(ctx.header)
  {
    match h {
      case AndR => cycles := GbCpu.AndR(ctx);
      case AndN => cycles := GbCpu.AndN(ctx);
      case AndHl => cycles := GbCpu.AndHl(ctx);
    }
  }

  /** `Execute` for XOR on A. */
  method ExecuteXor(ctx: EmulationState, h: Handler) returns (cycles: byte)
    requires ctx.Valid() && XorHandler(h)
    modifies ctx, ctx.memory
    ensures cycles == CycleCount(h)
    ensures ctx.registers.instruction == old(ctx.registers.instruction)
    ensures ctx.header == old(ctx.header)
  {
    match h {
      case XorR => cycles := GbCpu.XorR(ctx);
      case XorN => cycles := GbCpu.XorN(ctx);
      case XorHl => cycles := GbCpu.XorHl(ctx);
    }
  }

  /** `Execute` for OR on A. */
  method ExecuteOr(ctx: EmulationState, h: Handler) returns (cycles: byte)
    requires ctx.Valid() && OrHandler(h)
    modifies ctx, ctx.memory
    ensures cycles == CycleCount(h)
    ensures ctx.registers.instruction == old(ctx.registers.instruction)
    ensures ctx.header == old(ctx.header)
  {
    match h {
      case OrR => cycles := GbCpu.OrR(ctx);
      case OrN => cycles := GbCpu.OrN(ctx);
      case OrHl => cycles := GbCpu.OrHl(ctx);
    }
  }

  /** `Execute` for CP on A. */
  method ExecuteCompare(ctx: EmulationState, h: Handler) returns (cycles: byte)
    requires ctx.Valid() && CompareHandler(h)
    modifies ctx, ctx.memory
    ensures cycles == CycleCount(h)
    ensures ctx.registers.instruction == old(ctx.registers.instruction)
    ensures ctx.header == old(ctx.header)
  {
    match h {
      case CpR => cycles := GbCpu.CpR(ctx);
      case CpN => cycles := GbCpu.CpN(ctx);
      case CpHl => cycles := GbCpu.CpHl(ctx);
    }
  }

  /** `Execute` for INC and DEC on 8-bit operands. */
  method ExecuteByteStep(ctx: EmulationState, h: Handler) returns (cycles: byte)
    requires ctx.Valid() && ByteStepHandler(h)
    modifies ctx, ctx.memory
    ensures cycles == CycleCount(h)
    ensures ctx.registers.instruction == old(ctx.registers.instruction)
    ensures ctx.header == old(ctx.header)
  {
    match h {
      case IncR => cycles := GbCpu.IncR(ctx);
      case IncHl => cycles := GbCpu.IncHl(ctx);
      case DecR => cycles := GbCpu.DecR(ctx);
      case DecHl => cycles := GbCpu.DecHl(ctx);
    }
  }

  /** `Execute` for INC, DEC and ADD on 16-bit operands. */
  method ExecuteWordArithmetic(ctx: EmulationState, h: Handler) returns (cycles: byte)
    requires ctx.Valid() && WordArithmeticHandler(h)
    modifies ctx, ctx.memory
    ensures cycles == CycleCount(h)
    ensures ctx.registers.instruction == old(ctx.registers.instruction)
    ensures ctx.header == old(ctx.header)
  {
    match h {
      case IncRr => cycles := GbCpu.IncRr(ctx);
      case DecRr => cycles := GbCpu.DecRr(ctx);
      case AddHlRr => cycles := GbCpu.AddHlRr(ctx);
      case AddSpDd => cycles := GbCpu.AddSpDd(ctx);
      case LdHlSpPlusDd => cycles := GbCpu.LdHlSpPlusDd(ctx);
    }
  }

  /** `Execute` for CPL, DAA and the carry flag operations. */
  method ExecuteFlag(ctx: EmulationState, h: Handler) returns (cycles: byte)
    requires ctx.Valid() && FlagHandler(h)
    modifies ctx, ctx.memory
    ensures cycles == CycleCount(h)
    ensures ctx.registers.instruction == old(ctx.registers.instruction)
    ensures ctx.header == old(ctx.header)
  {
    match h {
      case Cpl => cycles := GbCpu.Cpl(ctx);
      case Daa => cycles := GbCpu.LogOnly(ctx);
      case Ccf => cycles := GbCpu.Ccf(ctx);
      case Scf => cycles := GbCpu.Scf(ctx);
    }
  }

  /** `Execute` for the halt and interrupt operations. */
  method ExecuteControl(ctx: EmulationState, h: Handler) returns (cycles: byte)
    requires ctx.Valid() && ControlHandler(h)
    modifies ctx, ctx.memory
    ensures cycles == CycleCount(h)
    ensures ctx.registers.instruction == old(ctx.registers.instruction)
    ensures ctx.header == old(ctx.header)
  {
    match h {
      case Halt => cycles := GbCpu.Halt(ctx);
      case Stop => cycles := GbCpu.Stop(ctx);
      case Di => cycles := GbCpu.Di(ctx);
      case Ei => cycles := GbCpu.Ei(ctx);
    }
  }

  /**
   * The INSTRUCTION value after an unknown opcode.  GB_INVALID_INSTRUCTION
   * is not part of this model; any value outside the byte range tells it
   * apart from a real opcode, and 0xFFFF is the one chosen here.
   */
  const InvalidInstruction: word := 0xFFFF

  /** The opcode byte as the fetch sees it. */
  function OpcodeBits(opcode: byte): bv8
  {
    opcode as bv8
  }

  /**
   * One tick on a present context: the opcode at PC is read and PC advances
   * by one; a known opcode is stored in INSTRUCTION and its handler's count
   * is returned, while an unknown one sets INSTRUCTION to the invalid marker,
   * writes 1 to the halt register 0xFF50 and returns 0.  The count is 0 only
   * for an unknown opcode.
   */
  method Tick(ctx: EmulationState) returns (cycles: byte)
    requires ctx.Valid()
    modifies ctx, ctx.memory
    ensures var opcode := old(ctx.memory[ctx.registers.pc]);
            match FirstMatch(OpcodeBits(opcode))
            case None =>
              ctx.registers == old(ctx.registers).(pc := Inc16(old(ctx.registers.pc)), instruction := InvalidInstruction)
              && ctx.memory[..] == old(ctx.memory[..])[HaltRegister := 1]
              && cycles == 0
            case Some(k) =>
              ctx.registers.instruction == opcode
              && cycles == CycleCount(InstructionAt(k).handler)
              && cycles > 0
  {
    var opcode := ctx.memory[ctx.registers.pc];
    ctx.registers := ctx.registers.(pc := Inc16(ctx.registers.pc));
    var fetched := FetchInstruction(OpcodeBits(opcode));
    if fetched.Some? {
      ctx.registers := ctx.registers.(instruction := opcode);
      SelectedHandlersNeverStop(OpcodeBits(opcode));
      cycles := Execute(ctx, fetched.value.handler);
    } else {
      ctx.registers := ctx.registers.(instruction := InvalidInstruction);
      ctx.memory[HaltRegister] := 1;
      cycles := 0;
    }
  }

  /** `GB_TickEmulation`: no context gives 0; otherwise one tick. */
  method TickEmulation(ctx: EmulationState?) returns (cycles: byte)
    requires ctx != null ==> ctx.Valid()
    modifies if ctx == null then {} else {ctx}
    modifies if ctx == null then {} else {ctx.memory}
    ensures ctx == null ==> cycles == 0
    ensures ctx != null ==>
              var opcode := old(ctx.memory[ctx.registers.pc]);
              match FirstMatch(OpcodeBits(opcode))
              case None =>
                ctx.registers == old(ctx.registers).(pc := Inc16(old(ctx.registers.pc)), instruction := InvalidInstruction)
                && ctx.memory[..] == old(ctx.memory[..])[HaltRegister := 1]
                && cycles == 0
              case Some(k) =>
                ctx.registers.instruction == opcode
                && cycles == CycleCount(InstructionAt(k).handler)
                && cycles > 0
  {
    if ctx == null {
      return 0;
    }
    cycles := Tick(ctx);
  }

  // ---------------------------------------------------------------------
  // Power-on state and program load
  // ---------------------------------------------------------------------

  /** The registers after `GB_Initialize`: SP = 0xFFFE and everything else zero. */
  function PowerOnRegisters(): (r: Registers)
  {
    Registers([0, 0, 0, 0, 0, 0, 0, 0], 0, 0xFFFE, 0, Flags(0, 0, 0, 0))
  }

  /** The memory after `GB_Initialize`: the hardware registers it sets, zero elsewhere. */
  function PowerOnMemory(): (m: seq<byte>)
    ensures |m| == MemorySize
  {
    seq(MemorySize, _ => 0)
      [IeRegister := 0x00][IfRegister := 0xE0]
      [LcdcRegister := 0x91][LcdStatRegister := 0x81]
      [BgpRegister := 0xFC][Obp0Register := 0xFF][Obp1Register := 0xFF]
  }

  /**
   * The power-on values: IE 0x00, IF 0xE0, LCDC 0x91, STAT 0x81, BGP 0xFC,
   * OBP0 and OBP1 0xFF, and every other byte zero, PC still 0.
   */
  lemma PowerOnValues(addr: word)
    ensures var m := PowerOnMemory();
            m[IfRegister] == 0xE0 && m[LcdcRegister] == 0x91 && m[LcdStatRegister] == 0x81
            && m[BgpRegister] == 0xFC && m[Obp0Register] == 0xFF && m[Obp1Register] == 0xFF
            && m[IeRegister] == 0
    ensures addr !in {IfRegister, LcdcRegister, LcdStatRegister, BgpRegister, Obp0Register, Obp1Register}
            ==> PowerOnMemory()[addr] == 0
    ensures PowerOnRegisters().sp == 0xFFFE && PowerOnRegisters().pc == 0
  {
  }

  /**
   * `GB_Initialize`: a fresh register record and a fresh zeroed 64 KiB
   * memory (the allocator is taken to clear what it returns), SP = 0xFFFE and
   * the hardware register defaults; the result code is 0.
   */
  method Initialize() returns (ctx: EmulationState, status: byte)
    ensures fresh(ctx) && fresh(ctx.memory) && ctx.Valid()
    ensures ctx.registers == PowerOnRegisters()
    ensures ctx.memory[..] == PowerOnMemory()
    ensures !ctx.ime && ctx.header == None
    ensures status == 0
  {
    var memory := new byte[MemorySize](_ => 0);
    ctx := new EmulationState(PowerOnRegisters(), memory);
    ctx.memory[IeRegister] := 0x00;
    ctx.memory[IfRegister] := 0xE0;
    ctx.memory[LcdcRegister] := 0x91;
    ctx.memory[LcdStatRegister] := 0x81;
    ctx.memory[BgpRegister] := 0xFC;
    ctx.memory[Obp0Register] := 0xFF;
    ctx.memory[Obp1Register] := 0xFF;
    return ctx, 0;
  }

  /**
   * The `uint16_t` RAM index of `GB_PopulateMemory` after `n` passes of its
   * loop: it starts at 0 and each pass increments it with wrap-around.
   */
  function PopulateIndexAfter(n: nat): word
  {
    if n == 0 then 0 else Inc16(PopulateIndexAfter(n - 1))
  }

  /** Below 0x10000 passes the index counts the passes. */
  lemma {:induction false} PopulateIndexCounts(n: nat)
    requires n < 0x10000
    ensures PopulateIndexAfter(n) == n
  {
    if n > 0 {
      PopulateIndexCounts(n - 1);
    }
  }

  /** Every 0x10000 passes the index returns to the value it had. */
  lemma {:induction false} PopulateIndexPeriodic(n: nat)
    ensures PopulateIndexAfter(n + 0x10000) == PopulateIndexAfter(n)
  {
    if n == 0 {
      PopulateIndexCounts(0xFFFF);
    } else {
      PopulateIndexPeriodic(n - 1);
    }
  }

  /**
   * The loop as written, for 0x10000 bytes or more (a 64 KiB image): the
   * guard `ramIndex < bytesRead` holds after every pass, so the loop never
   * ends, and after 0x10000 passes the index is back at 0, copying over
   * the bytes already written.
   */
  lemma PopulateLoopNeverExits(bytesRead: nat, n: nat)
    requires bytesRead >= 0x10000
    ensures PopulateIndexAfter(n) < bytesRead
    ensures n == 0x10000 ==> PopulateIndexAfter(n) == 0
  {
    if n == 0x10000 {
      PopulateIndexPeriodic(n - 0x10000);
    }
  }

  /**
   * `GB_PopulateMemory` with an index that counts up to the byte count:
   * memory[i] := buffer[i] for every i below the count, every other byte
   * kept, then the header parsed from the buffer.  The count may be as
   * large as the whole 64 KiB memory; the source's 16-bit index never ends
   * the loop for a count of 0x10000 (`PopulateLoopNeverExits`).
   */
  method PopulateMemory(ctx: EmulationState, buffer: seq<byte>, bytesRead: nat)
    requires ctx.Valid()
    requires bytesRead <= |buffer| && bytesRead <= MemorySize
    modifies ctx, ctx.memory
    ensures ctx.memory[..] == buffer[..bytesRead] + old(ctx.memory[..])[bytesRead..]
    ensures ctx.header == ParseRom(buffer[..bytesRead])
    ensures ctx.registers == old(ctx.registers) && ctx.ime == old(ctx.ime)
  {
    var ramIndex := 0;
    while ramIndex < bytesRead
      modifies ctx.memory
      invariant 0 <= ramIndex <= bytesRead
      invariant forall a | 0 <= a < ctx.memory.Length ::
                  ctx.memory[a] == if a < ramIndex then buffer[a] else old(ctx.memory[a])
    {
      ctx.memory[ramIndex] := buffer[ramIndex];
      ramIndex := ramIndex + 1;
    }
    assert ctx.memory[..] == buffer[..bytesRead] + old(ctx.memory[..])[bytesRead..];
    ctx.header := ParseRom(buffer[..bytesRead]);
  }

  // ---------------------------------------------------------------------
  // Cartridge header
  // ---------------------------------------------------------------------

  /** The smallest image that holds the whole header, 0x100 to 0x14F. */
  const HeaderEnd: nat := 0x150

  /** Some byte of `src` at or before index `i` is NUL. */
  predicate NulUpTo(src: seq<byte>, i: nat)
    requires i < |src|
  {
    exists j | 0 <= j <= i :: src[j] == 0
  }

  /** `strncpy(dest, src, n)`: the bytes of `src` up to its first NUL, padded with NULs to `n`. */
  function StrnCopy(src: seq<byte>, n: nat): (r: seq<byte>)
    requires n <= |src|
    ensures |r| == n
    ensures forall i | 0 <= i < n :: r[i] == if NulUpTo(src, i) then 0 else src[i]
  {
    if n == 0 then []
    else if src[0] == 0 then
      assert forall i | 0 <= i < n :: NulUpTo(src, i) by {
        forall i | 0 <= i < n ensures NulUpTo(src, i) { assert src[0] == 0; }
      }
      seq(n, _ => 0)
    else
      var rest := StrnCopy(src[1..], n - 1);
      NulUpToShift(src, n);
      [src[0]] + rest
  }

  /** Past a first byte that is not NUL, a NUL up to `i` is a NUL up to `i - 1` in the tail. */
  lemma NulUpToShift(src: seq<byte>, n: nat)
    requires 0 < n <= |src| && src[0] != 0
    ensures forall i | 1 <= i < n :: NulUpTo(src, i) == NulUpTo(src[1..], i - 1)
  {
    forall i | 1 <= i < n
      ensures NulUpTo(src, i) == NulUpTo(src[1..], i - 1)
    {
      if NulUpTo(src, i) {
        var j :| 0 <= j <= i && src[j] == 0;
        assert src[1..][j - 1] == 0;
      }
      if NulUpTo(src[1..], i - 1) {
        var j :| 0 <= j <= i - 1 && src[1..][j] == 0;
        assert src[j + 1] == 0;
      }
    }
  }

  /** A fixed-size character field: `strncpy` followed by a NUL in its last byte. */
  function CopyString(buffer: seq<byte>, start: nat, size: nat): (r: seq<byte>)
    requires 0 < size && start + size <= |buffer|
    ensures |r| == size && r[size - 1] == 0
    ensures forall i | 0 <= i < size - 1 :: r[i] == if NulUpTo(buffer[start..start + size], i) then 0 else buffer[start + i]
  {
    var copied := StrnCopy(buffer[start..start + size], size);
    copied[size - 1 := 0]
  }

  /**
   * `GB_ParseRom`: the header fields at their fixed offsets.  The entry point
   * is little-endian and the global checksum big-endian; the GBC and CGB
   * flags are both taken from 0x143.  The source reads these offsets without
   * checking the size; an image too short for them gives no header here.
   */
  function ParseRom(buffer: seq<byte>): (h: Option<RomHeader>)
    ensures h.Some? <==> |buffer| >= HeaderEnd
    ensures h.Some? ==>
              Lsb(h.value.entryPoint) == buffer[0x100] && Msb(h.value.entryPoint) == buffer[0x101]
              && Msb(h.value.globalChecksum) == buffer[0x14E] && Lsb(h.value.globalChecksum) == buffer[0x14F]
              && h.value.gbcFlag == buffer[0x143] && h.value.cgbFlag == buffer[0x143]
              && h.value.sgbFlag == buffer[0x146] && h.value.cartridgeType == buffer[0x147]
              && h.value.romSize == buffer[0x148] && h.value.ramSize == buffer[0x149]
              && h.value.destinationCode == buffer[0x14A] && h.value.oldLicenseeCode == buffer[0x14B]
              && h.value.maskRomVersion == buffer[0x14C] && h.value.headerChecksum == buffer[0x14D]
              && |h.value.title| == TitleSize && h.value.title[TitleSize - 1] == 0
              && |h.value.manufacturerCode| == ManufacturerCodeSize && h.value.manufacturerCode[ManufacturerCodeSize - 1] == 0
              && |h.value.newLicenseeCode| == NewLicenseeCodeSize && h.value.newLicenseeCode[NewLicenseeCodeSize - 1] == 0
  {
    if |buffer| < HeaderEnd then None
    else
      Some(RomHeader(
        entryPoint := U8ToU16(buffer[0x100], buffer[0x101]),
        title := CopyString(buffer, 0x134, TitleSize),
        gbcFlag := buffer[0x143],
        manufacturerCode := CopyString(buffer, 0x13F, ManufacturerCodeSize),
        cgbFlag := buffer[0x143],
        newLicenseeCode := CopyString(buffer, 0x144, NewLicenseeCodeSize),
        sgbFlag := buffer[0x146],
        cartridgeType := buffer[0x147],
        romSize := buffer[0x148],
        ramSize := buffer[0x149],
        destinationCode := buffer[0x14A],
        oldLicenseeCode := buffer[0x14B],
        maskRomVersion := buffer[0x14C],
        headerChecksum := buffer[0x14D],
        globalChecksum := U8ToU16(buffer[0x14F], buffer[0x14E])))
  }

  /**
   * The two 16-bit fields are the C expressions `b[0x100] | (b[0x101] << 8)`
   * and `(b[0x14E] << 8) | b[0x14F]`, which read the same two-byte pattern in
   * opposite byte orders.
   */
  lemma HeaderWordsByteOrder(buffer: seq<byte>)
    requires |buffer| >= HeaderEnd
    ensures ParseRom(buffer).value.entryPoint == BitOr(buffer[0x100], buffer[0x101] * Pow2(8), 16)
    ensures ParseRom(buffer).value.globalChecksum == BitOr(buffer[0x14F], buffer[0x14E] * Pow2(8), 16)
    ensures buffer[0x100] == buffer[0x14F] && buffer[0x101] == buffer[0x14E]
            ==> ParseRom(buffer).value.entryPoint == ParseRom(buffer).value.globalChecksum
  {
    U8ToU16IsBitwiseOr(buffer[0x100], buffer[0x101]);
    U8ToU16IsBitwiseOr(buffer[0x14F], buffer[0x14E]);
  }

  /** Only the first 0x150 bytes decide the header: loading more leaves it the same. */
  lemma ParseRomReadsHeaderOnly(buffer: seq<byte>, extra: seq<byte>)
    requires |buffer| >= HeaderEnd
    ensures ParseRom(buffer + extra) == ParseRom(buffer)
  {
    var b := buffer + extra;
    assert b[0x134..0x134 + TitleSize] == buffer[0x134..0x134 + TitleSize];
    assert b[0x13F..0x13F + ManufacturerCodeSize] == buffer[0x13F..0x13F + ManufacturerCodeSize];
    assert b[0x144..0x144 + NewLicenseeCodeSize] == buffer[0x144..0x144 + NewLicenseeCodeSize];
  }
}
