/**
 * The CHIP-8 core of `CC8_Emulator.c`: the dispatch table built by
 * `CC8_BuildInstructionLUT`, the scan of `FetchInstruction`, the operand
 * decode and dispatch of `CC8_Step`, `CC8_TickEmulation`, the delay timer,
 * the copy loops of `CC8_LoadProgram` and `CC8_SetKeyboardValue`.
 *
 * The handlers of `CC8_Instructions.h` are not part of this model: a table
 * entry carries a `Handler` tag, and a step reports the tag and the decoded
 * operands it would call the handler with.
 */
module Chip8Emulator {
  import opened Bits
  import opened Wrappers
  import opened Chip8Memory

  /** One tag per handler the table refers to, named after the CHIP-8 mnemonic. */
  datatype Handler =
    | Cls
    | Ret
    | Jmp
    | Call
    | SeVxByte
    | SneVxByte
    | SeVxVy
    | LdVxByte
    | AddVxByte
    | LdVxVy
    | OrVxVy
    | AndVxVy
    | XorVxVy
    | AddVxVy
    | SubVxVy
    | ShrVxVy
    | SubnVxVy
    | ShlVxVy
    | SneVxVy
    | LdIAddr
    | JpV0Addr
    | RndVxByte
    | DrwVxVyNibble
    | SkpVx
    | SknpVx
    | LdVxDt
    | LdVxK
    | LdDtVx
    | LdStVx
    | AddIVx
    | LdFVx
    | LdBVx
    | LdIVx
    | LdVxI

  /** The operand fields `CC8_Step` extracts from an opcode. */
  datatype Operands = Operands(x: bv16, y: bv16, nnn: bv16, kk: bv16, n: bv16)

  /** What a step hands over: the handler found and the operands it receives. */
  datatype Dispatch = Dispatch(handler: Handler, operands: Operands)

  /** `CC8_INVALID_INSTRUCTION` is not part of this model; this value stands for it. */
  const InvalidInstruction: bv16 := 0xFFFF

  /** `CC8_FONT`: sixteen 5-byte glyphs, "0" to "F". */
  function Font(): (f: seq<bv8>)
    ensures |f| == 80
  {
    [
    0xF0, 0x90, 0x90, 0x90, 0xF0, 0x20, 0x60, 0x20, 0x20, 0x70,
    0xF0, 0x10, 0xF0, 0x80, 0xF0, 0xF0, 0x10, 0xF0, 0x10, 0xF0,
    0x90, 0x90, 0xF0, 0x10, 0x10, 0xF0, 0x80, 0xF0, 0x10, 0xF0,
    0xF0, 0x80, 0xF0, 0x90, 0xF0, 0xF0, 0x10, 0x20, 0x40, 0x40,
    0xF0, 0x90, 0xF0, 0x90, 0xF0, 0xF0, 0x90, 0xF0, 0x10, 0xF0,
    0xF0, 0x90, 0xF0, 0x90, 0x90, 0xE0, 0x90, 0xE0, 0x90, 0xE0,
    0xF0, 0x80, 0x80, 0x80, 0xF0, 0xE0, 0x90, 0x90, 0x90, 0xE0,
    0xF0, 0x80, 0xF0, 0x80, 0xF0, 0xF0, 0x80, 0xF0, 0x80, 0x80]
  }

  // ---------------------------------------------------------------------
  // The table the builder appends
  // ---------------------------------------------------------------------
  /** Masks of 0x0nnn to 0x7xkk: screen clear, return, jumps, calls, skips and immediate loads. */
  const FlowMasks: seq<bv16> := [0x00E0, 0x00EE, 0x1000, 0x2000, 0x3000, 0x4000, 0x5000, 0x6000, 0x7000]
  const FlowHandlers: seq<Handler> := [Cls, Ret, Jmp, Call, SeVxByte, SneVxByte, SeVxVy, LdVxByte, AddVxByte]

  /** Masks of 0x8xyN: register to register operations. */
  const RegisterMasks: seq<bv16> := [0x8000, 0x8001, 0x8002, 0x8003, 0x8004, 0x8005, 0x8006, 0x8007, 0x800E]
  const RegisterHandlers: seq<Handler> := [LdVxVy, OrVxVy, AndVxVy, XorVxVy, AddVxVy, SubVxVy, ShrVxVy, SubnVxVy, ShlVxVy]

  /** Masks of 0x9xy0 to 0xExA1: register skip, I, jump, random, draw and key skips. */
  const IndexDrawKeyMasks: seq<bv16> := [0x9000, 0xA000, 0xB000, 0xC000, 0xD000, 0xE09E, 0xE0A1]
  const IndexDrawKeyHandlers: seq<Handler> := [SneVxVy, LdIAddr, JpV0Addr, RndVxByte, DrwVxVyNibble, SkpVx, SknpVx]

  /** Masks of 0xFxNN: timers, key wait, I arithmetic, font, BCD and block moves. */
  const MiscMasks: seq<bv16> := [0xF007, 0xF00A, 0xF015, 0xF018, 0xF01E, 0xF029, 0xF033, 0xF055, 0xF065]
  const MiscHandlers: seq<Handler> := [LdVxDt, LdVxK, LdDtVx, LdStVx, AddIVx, LdFVx, LdBVx, LdIVx, LdVxI]

  /** The 34 masks `CC8_BuildInstructionLUT` appends, in call order. */
  const BuiltMasks: seq<bv16> := FlowMasks + RegisterMasks + IndexDrawKeyMasks + MiscMasks
  /** The 34 handlers appended beside them. */
  const BuiltHandlers: seq<Handler> := FlowHandlers + RegisterHandlers + IndexDrawKeyHandlers + MiscHandlers

  /**
   * Mask `i` of the built table, 0 past the 34 entries.  It is a binary
   * case split on `i` so that the verifier finds each slot in a few steps;
   * each leaf names its slot and the handler `AddInstruction` pairs with it.
   */
  function BuiltMask(i: int): bv16
  {
    if i >= 34 then 0
    else
      if i < 17 then
        if i < 8 then
          if i < 4 then
            if i < 2 then
              if i < 1 then
                0x00E0 // slot 0: CLS
              else
                0x00EE // slot 1: RET
            else
              if i < 3 then
                0x1000 // slot 2: JMP
              else
                0x2000 // slot 3: CALL
          else
            if i < 6 then
              if i < 5 then
                0x3000 // slot 4: SE_VX_BYTE
              else
                0x4000 // slot 5: SNE_VX_BYTE
            else
              if i < 7 then
                0x5000 // slot 6: SE_VX_VY
              else
                0x6000 // slot 7: LD_VX_BYTE
        else
          if i < 12 then
            if i < 10 then
              if i < 9 then
                0x7000 // slot 8: ADD_VX_BYTE
              else
                0x8000 // slot 9: LD_VX_VY
            else
              if i < 11 then
                0x8001 // slot 10: OR_VX_VY
              else
                0x8002 // slot 11: AND_VX_VY
          else
            if i < 14 then
              if i < 13 then
                0x8003 // slot 12: XOR_VX_VY
              else
                0x8004 // slot 13: ADD_VX_VY
            else
              if i < 15 then
                0x8005 // slot 14: SUB_VX_VY
              else
                if i < 16 then
                  0x8006 // slot 15: SHR_VX_VY
                else
                  0x8007 // slot 16: SUBN_VX_VY
      else
        if i < 25 then
          if i < 21 then
            if i < 19 then
              if i < 18 then
                0x800E // slot 17: SHL_VX_VY
              else
                0x9000 // slot 18: SNE_VX_VY
            else
              if i < 20 then
                0xA000 // slot 19: LD_I_ADDR
              else
                0xB000 // slot 20: JP_V0_ADDR
          else
            if i < 23 then
              if i < 22 then
                0xC000 // slot 21: RND_VX_BYTE
              else
                0xD000 // slot 22: DRW_VX_VY_NIBBLE
            else
              if i < 24 then
                0xE09E // slot 23: SKP_VX
              else
                0xE0A1 // slot 24: SKNP_VX
        else
          if i < 29 then
            if i < 27 then
              if i < 26 then
                0xF007 // slot 25: LD_VX_DT
              else
                0xF00A // slot 26: LD_VX_K
            else
              if i < 28 then
                0xF015 // slot 27: LD_DT_VX
              else
                0xF018 // slot 28: LD_ST_VX
          else
            if i < 31 then
              if i < 30 then
                0xF01E // slot 29: ADD_I_VX
              else
                0xF029 // slot 30: LD_F_VX
            else
              if i < 32 then
                0xF033 // slot 31: LD_B_VX
              else
                if i < 33 then
                  0xF055 // slot 32: LD_I_VX
                else
                  0xF065 // slot 33: LD_VX_I
  }

  /** The built masks, slot by slot. */
  lemma BuiltMasksAre()
    ensures BuiltMasks == seq(34, BuiltMask)
  {
  }

  /** A mask table whose first 34 slots are the built ones; later builds only append. */
  predicate StartsBuilt(masks: seq<bv16>)
  {
    |masks| >= 34 && forall i | 0 <= i < 34 :: MaskAt(masks, i) == BuiltMask(i)
  }

  /** Every table that begins with a build starts with the built masks. */
  lemma BuiltTableStartsBuilt(rest: seq<bv16>)
    ensures StartsBuilt(BuiltMasks + rest)
  {
    BuiltMasksAre();
  }

  /** The builder appends 34 entries, one more than the declared capacity of 33. */
  lemma BuiltTableOverflows()
    ensures |BuiltMasks| == |BuiltHandlers| == InstructionSetLength + 1
  {
  }

  /** Consecutive built masks strictly increase. */
  lemma BuiltMaskStep(i: int)
    requires 0 <= i < 33
    ensures BuiltMask(i) < BuiltMask(i + 1)
  {
    if i == 0 {
    } else if i == 1 {
    } else if i == 2 {
    } else if i == 3 {
    } else if i == 4 {
    } else if i == 5 {
    } else if i == 6 {
    } else if i == 7 {
    } else if i == 8 {
    } else if i == 9 {
    } else if i == 10 {
    } else if i == 11 {
    } else if i == 12 {
    } else if i == 13 {
    } else if i == 14 {
    } else if i == 15 {
    } else if i == 16 {
    } else if i == 17 {
    } else if i == 18 {
    } else if i == 19 {
    } else if i == 20 {
    } else if i == 21 {
    } else if i == 22 {
    } else if i == 23 {
    } else if i == 24 {
    } else if i == 25 {
    } else if i == 26 {
    } else if i == 27 {
    } else if i == 28 {
    } else if i == 29 {
    } else if i == 30 {
    } else if i == 31 {
    }
  }

  /** The built masks are pairwise distinct. */
  lemma BuiltMasksDistinct(i: int, j: int)
    requires 0 <= i < j < 34
    ensures BuiltMask(i) != BuiltMask(j)
  {
    if i == 0 {
    } else if i == 1 {
    } else if i == 2 {
    } else if i == 3 {
    } else if i == 4 {
    } else if i == 5 {
    } else if i == 6 {
    } else if i == 7 {
    } else if i == 8 {
    } else if i == 9 {
    } else if i == 10 {
    } else if i == 11 {
    } else if i == 12 {
    } else if i == 13 {
    } else if i == 14 {
    } else if i == 15 {
    } else if i == 16 {
    } else if i == 17 {
    } else if i == 18 {
    } else if i == 19 {
    } else if i == 20 {
    } else if i == 21 {
    } else if i == 22 {
    } else if i == 23 {
    } else if i == 24 {
    } else if i == 25 {
    } else if i == 26 {
    } else if i == 27 {
    } else if i == 28 {
    } else if i == 29 {
    } else if i == 30 {
    } else if i == 31 {
    } else if i == 32 {
    }
  }

  /** Every slot from 9 on holds a mask of 0x8000 or above. */
  lemma HighSlots(i: int)
    requires 9 <= i < 34
    ensures BuiltMask(i) >= 0x8000
  {
  }

  // ---------------------------------------------------------------------
  // The scan of `FetchInstruction`
  // ---------------------------------------------------------------------

  /** The scan examines the slots below this bound, reading one slot beyond each. */
  const FetchBound: nat := 33

  /** Slot `i` of the mask array; slots never written hold 0, as static storage does. */
  function MaskAt(masks: seq<bv16>, i: nat): bv16
  {
    if i < |masks| then masks[i] else 0
  }

  /**
   * Slot `i` takes the opcode when the opcode contains every bit of its mask
   * and either lies below the next slot's mask or the masked value is one of
   * 0x8000, 0xE000 and 0xF000.
   */
  predicate Selects(masks: seq<bv16>, opcode: bv16, i: nat)
  {
    Takes(opcode, MaskAt(masks, i), MaskAt(masks, i + 1))
  }

  /** The test of one slot, given its mask and the next slot's mask. */
  predicate Takes(opcode: bv16, mask: bv16, next: bv16)
  {
    var opmask := opcode & mask;
    opmask == mask && (opcode < next || opmask == 0x8000 || opmask == 0xE000 || opmask == 0xF000)
  }

  /** The first slot from `i` on, below the bound, that takes the opcode. */
  function FetchFrom(masks: seq<bv16>, opcode: bv16, i: nat): (r: Option<nat>)
    ensures r.Some? ==> i <= r.value < FetchBound
    decreases FetchBound - i
  {
    if i >= FetchBound then None
    else if Selects(masks, opcode, i) then Some(i)
    else FetchFrom(masks, opcode, i + 1)
  }

  /** The slot `FetchInstruction` returns the handler of. */
  function FetchIndex(masks: seq<bv16>, opcode: bv16): Option<nat>
  {
    FetchFrom(masks, opcode, 0)
  }

  /** The scan from `i` finds a slot that takes the opcode with none before it, or finds none exactly when no slot does. */
  lemma {:induction false} FetchFromIsFirst(masks: seq<bv16>, opcode: bv16, i: nat)
    ensures var r := FetchFrom(masks, opcode, i);
            (r.Some? ==> Selects(masks, opcode, r.value))
            && (r.Some? ==> forall j | i <= j < r.value :: !Selects(masks, opcode, j))
            && (r.None? <==> forall j | i <= j < FetchBound :: !Selects(masks, opcode, j))
    decreases FetchBound - i
  {
    if i < FetchBound && !Selects(masks, opcode, i) {
      FetchFromIsFirst(masks, opcode, i + 1);
    }
  }

  /** A slot that takes the opcode with no earlier one doing so is the one found. */
  lemma {:induction false} FetchFromFinds(masks: seq<bv16>, opcode: bv16, i: nat, k: nat)
    requires i <= k < FetchBound && Selects(masks, opcode, k)
    requires forall j | i <= j < k :: !Selects(masks, opcode, j)
    ensures FetchFrom(masks, opcode, i) == Some(k)
    decreases k - i
  {
    if i < k {
      FetchFromFinds(masks, opcode, i + 1, k);
    }
  }

  /** A slot never written has mask 0 and a next mask 0, so it takes no opcode. */
  lemma UnwrittenSlotsSelectNothing(masks: seq<bv16>, opcode: bv16, i: nat)
    requires i >= |masks|
    ensures !Selects(masks, opcode, i)
  {
  }

  /**
   * The handler `FetchInstruction` returns: the one beside the slot found,
   * and none when no slot takes the opcode.  The slot found always holds an
   * entry.
   */
  function Lookup(masks: seq<bv16>, handlers: seq<Handler>, opcode: bv16): (h: Option<Handler>)
    requires |masks| == |handlers|
    ensures h.Some? <==> FetchIndex(masks, opcode).Some?
    ensures h.Some? ==> FetchIndex(masks, opcode).value < |handlers| && h.value == handlers[FetchIndex(masks, opcode).value]
  {
    var r := FetchIndex(masks, opcode);
    if r.None? then None
    else
      FetchFromIsFirst(masks, opcode, 0);
      if r.value < |masks| then Some(handlers[r.value])
      else
        UnwrittenSlotsSelectNothing(masks, opcode, r.value);
        assert false;
        None
  }

  /**
   * The masks and handlers `AddInstruction` writes side by side.  The arrays
   * of the source have `CC8_INSTRUCTION_SET_LENGHT` slots and a running index
   * that is never reset; here they are sequences that grow, the index being
   * their length, so the writes the source makes past its 33 slots land in
   * entries that exist here.
   */
  class InstructionLut {
    var masks: seq<bv16>
    var handlers: seq<Handler>

    ghost predicate Valid()
      reads this
    {
      |masks| == |handlers|
    }

    constructor ()
      ensures Valid() && masks == [] && handlers == []
    {
      masks := [];
      handlers := [];
    }

    /** `AddInstruction`: the mask and the handler go to the same slot, and the index advances by one. */
    method AddInstruction(mask: bv16, fn: Handler)
      requires Valid()
      modifies this
      ensures Valid()
      ensures masks == old(masks) + [mask] && handlers == old(handlers) + [fn]
    {
      masks := masks + [mask];
      handlers := handlers + [fn];
    }

    /** The calls of `CC8_BuildInstructionLUT` that add the Flow entries. */
    method AddFlowEntries()
      requires Valid()
      modifies this
      ensures Valid()
      ensures masks == old(masks) + FlowMasks && handlers == old(handlers) + FlowHandlers
    {
      AddInstruction(0x00E0, Cls);
      AddInstruction(0x00EE, Ret);
      AddInstruction(0x1000, Jmp);
      AddInstruction(0x2000, Call);
      AddInstruction(0x3000, SeVxByte);
      AddInstruction(0x4000, SneVxByte);
      AddInstruction(0x5000, SeVxVy);
      AddInstruction(0x6000, LdVxByte);
      AddInstruction(0x7000, AddVxByte);
    }

    /** The calls of `CC8_BuildInstructionLUT` that add the Register entries. */
    method AddRegisterEntries()
      requires Valid()
      modifies this
      ensures Valid()
      ensures masks == old(masks) + RegisterMasks && handlers == old(handlers) + RegisterHandlers
    {
      AddInstruction(0x8000, LdVxVy);
      AddInstruction(0x8001, OrVxVy);
      AddInstruction(0x8002, AndVxVy);
      AddInstruction(0x8003, XorVxVy);
      AddInstruction(0x8004, AddVxVy);
      AddInstruction(0x8005, SubVxVy);
      AddInstruction(0x8006, ShrVxVy);
      AddInstruction(0x8007, SubnVxVy);
      AddInstruction(0x800E, ShlVxVy);
    }

    /** The calls of `CC8_BuildInstructionLUT` that add the IndexDrawKey entries. */
    method AddIndexDrawKeyEntries()
      requires Valid()
      modifies this
      ensures Valid()
      ensures masks == old(masks) + IndexDrawKeyMasks && handlers == old(handlers) + IndexDrawKeyHandlers
    {
      AddInstruction(0x9000, SneVxVy);
      AddInstruction(0xA000, LdIAddr);
      AddInstruction(0xB000, JpV0Addr);
      AddInstruction(0xC000, RndVxByte);
      AddInstruction(0xD000, DrwVxVyNibble);
      AddInstruction(0xE09E, SkpVx);
      AddInstruction(0xE0A1, SknpVx);
    }

    /** The calls of `CC8_BuildInstructionLUT` that add the Misc entries. */
    method AddMiscEntries()
      requires Valid()
      modifies this
      ensures Valid()
      ensures masks == old(masks) + MiscMasks && handlers == old(handlers) + MiscHandlers
    {
      AddInstruction(0xF007, LdVxDt);
      AddInstruction(0xF00A, LdVxK);
      AddInstruction(0xF015, LdDtVx);
      AddInstruction(0xF018, LdStVx);
      AddInstruction(0xF01E, AddIVx);
      AddInstruction(0xF029, LdFVx);
      AddInstruction(0xF033, LdBVx);
      AddInstruction(0xF055, LdIVx);
      AddInstruction(0xF065, LdVxI);
    }

    /**
     * `CC8_BuildInstructionLUT`: appends the 34 entries in order after
     * whatever the table already holds; the index is not reset, so a second
     * build appends them again.
     */
    method Build()
      requires Valid()
      modifies this
      ensures Valid()
      ensures masks == old(masks) + BuiltMasks && handlers == old(handlers) + BuiltHandlers
    {
      AddFlowEntries();
      AddRegisterEntries();
      AddIndexDrawKeyEntries();
      AddMiscEntries();
    }

    /**
     * `FetchInstruction`: scans slots 0 to 32 and returns the handler of the
     * first that takes the opcode, reading the mask of the next slot at each
     * step, or none.
     */
    method FetchInstruction(opcode: bv16) returns (fn: Option<Handler>)
      requires Valid()
      ensures fn == Lookup(masks, handlers, opcode)
    {
      var i := 0;
      while i < FetchBound
        invariant 0 <= i <= FetchBound
        invariant FetchFrom(masks, opcode, i) == FetchIndex(masks, opcode)
      {
        if Takes(opcode, MaskAt(masks, i), MaskAt(masks, i + 1)) {
          assert i < |masks|;
          return Some(handlers[i]);
        }
        i := i + 1;
      }
      return None;
    }
  }

  // ---------------------------------------------------------------------
  // Dispatch over the built table
  // ---------------------------------------------------------------------

  /**
   * Below 0x1000 only the first two slots can take an opcode: CLS when the
   * opcode holds the bits of 0x00E0 and lies below 0x00EE, RET when it holds
   * the bits of 0x00EE, and none otherwise.
   */
  lemma LowOpcodes(masks: seq<bv16>, opcode: bv16)
    requires StartsBuilt(masks) && opcode < 0x1000
    ensures FetchIndex(masks, opcode)
            == if opcode & 0x00E0 == 0x00E0 && opcode < 0x00EE then Some(0)
               else if opcode & 0x00EE == 0x00EE then Some(1)
               else None
  {
    assert forall j | 2 <= j < FetchBound :: !Selects(masks, opcode, j);
    FetchFromIsFirst(masks, opcode, 0);
    if opcode & 0x00E0 == 0x00E0 && opcode < 0x00EE {
      FetchFromFinds(masks, opcode, 0, 0);
    } else if opcode & 0x00EE == 0x00EE {
      FetchFromFinds(masks, opcode, 0, 1);
    }
  }

  /** For an opcode in the band of slot `k`, 2 to 8, slot `k` is the first to take it. */
  lemma MiddleOpcodesAt(masks: seq<bv16>, opcode: bv16, k: nat)
    requires StartsBuilt(masks)
    requires 2 <= k <= 8 && BuiltMask(k) <= opcode < BuiltMask(k + 1)
    ensures FetchIndex(masks, opcode) == Some(k)
    ensures masks[k] == opcode & 0xF000
  {
    assert forall j | 0 <= j < k :: !Selects(masks, opcode, j);
    FetchFromFinds(masks, opcode, 0, k);
  }

  /**
   * From 0x1000 to 0x7FFF the slot found is the one whose mask is the
   * opcode's top nibble, `opcode & 0xF000`: JP, CALL, the immediate skips,
   * SE Vx,Vy, LD Vx,byte and ADD Vx,byte.
   */
  lemma MiddleOpcodes(masks: seq<bv16>, opcode: bv16)
    requires StartsBuilt(masks) && 0x1000 <= opcode < 0x8000
    ensures FetchIndex(masks, opcode).Some?
    ensures var k := FetchIndex(masks, opcode).value;
            2 <= k <= 8 && masks[k] == opcode & 0xF000
  {
    if opcode < 0x2000 { MiddleOpcodesAt(masks, opcode, 2); }
    else if opcode < 0x3000 { MiddleOpcodesAt(masks, opcode, 3); }
    else if opcode < 0x4000 { MiddleOpcodesAt(masks, opcode, 4); }
    else if opcode < 0x5000 { MiddleOpcodesAt(masks, opcode, 5); }
    else if opcode < 0x6000 { MiddleOpcodesAt(masks, opcode, 6); }
    else if opcode < 0x7000 { MiddleOpcodesAt(masks, opcode, 7); }
    else { MiddleOpcodesAt(masks, opcode, 8); }
  }

  /**
   * Every opcode from 0x8000 up is taken by slot 9, LD Vx,Vy: its mask 0x8000
   * is contained in the opcode and is one of the masked values accepted
   * without the upper-bound test, and no earlier slot takes it.
   */
  lemma HighOpcodes(masks: seq<bv16>, opcode: bv16)
    requires StartsBuilt(masks) && 0x8000 <= opcode
    ensures FetchIndex(masks, opcode) == Some(9)
  {
    assert forall j | 0 <= j < 9 :: !Selects(masks, opcode, j);
    FetchFromFinds(masks, opcode, 0, 9);
  }

  /** Hence slots 10 to 33 are never returned, however often the table was built. */
  lemma LaterSlotsUnreachable(masks: seq<bv16>, opcode: bv16)
    requires StartsBuilt(masks)
    ensures FetchIndex(masks, opcode).Some? ==> FetchIndex(masks, opcode).value <= 9
  {
    if opcode < 0x1000 {
      LowOpcodes(masks, opcode);
    } else if opcode < 0x8000 {
      MiddleOpcodes(masks, opcode);
    } else {
      HighOpcodes(masks, opcode);
    }
  }

  /** A table built once from empty dispatches 0x6A12 to LD Vx,byte, 0x00E0 to CLS and 0x00EE to RET, and rejects 0x0000. */
  lemma DispatchExamples()
    ensures Lookup(BuiltMasks, BuiltHandlers, 0x6A12) == Some(LdVxByte)
    ensures Lookup(BuiltMasks, BuiltHandlers, 0x00E0) == Some(Cls)
    ensures Lookup(BuiltMasks, BuiltHandlers, 0x00EE) == Some(Ret)
    ensures Lookup(BuiltMasks, BuiltHandlers, 0x0000) == None
  {
    LoadByteExample();
    ZeroPageExamples();
  }

  /** 0x6A12 reaches slot 7, LD Vx,byte. */
  lemma LoadByteExample()
    ensures Lookup(BuiltMasks, BuiltHandlers, 0x6A12) == Some(LdVxByte)
  {
    BuiltTableOverflows();
    BuiltTableStartsBuilt([]);
    assert BuiltMasks + [] == BuiltMasks;
    MiddleOpcodesAt(BuiltMasks, 0x6A12, 7);
    assert BuiltHandlers[7] == FlowHandlers[7] == LdVxByte;
  }

  /** The three 0x0nnn examples: CLS, RET and the rejected 0x0000. */
  lemma ZeroPageExamples()
    ensures Lookup(BuiltMasks, BuiltHandlers, 0x00E0) == Some(Cls)
    ensures Lookup(BuiltMasks, BuiltHandlers, 0x00EE) == Some(Ret)
    ensures Lookup(BuiltMasks, BuiltHandlers, 0x0000) == None
  {
    BuiltTableOverflows();
    BuiltTableStartsBuilt([]);
    assert BuiltMasks + [] == BuiltMasks;
    LowOpcodes(BuiltMasks, 0x00E0);
    LowOpcodes(BuiltMasks, 0x00EE);
    LowOpcodes(BuiltMasks, 0x0000);
  }

  /**
   * In this unbounded table a second build leaves dispatch unchanged: the
   * scan never reads past slot 33.  The source's 33-slot arrays instead
   * receive those appends past their end.
   */
  lemma {:induction false} RebuildKeepsDispatch(masks: seq<bv16>, rest: seq<bv16>, opcode: bv16, i: nat)
    requires FetchBound < |masks| && i <= FetchBound
    ensures FetchFrom(masks + rest, opcode, i) == FetchFrom(masks, opcode, i)
    decreases FetchBound - i
  {
    if i < FetchBound {
      RebuildKeepsDispatch(masks, rest, opcode, i + 1);
      assert MaskAt(masks + rest, i) == MaskAt(masks, i);
      assert MaskAt(masks + rest, i + 1) == MaskAt(masks, i + 1);
    }
  }

  // ---------------------------------------------------------------------
  // A dispatch that selects by opcode family
  // ---------------------------------------------------------------------

  /**
   * The bits that identify an instruction of the family of mask `m`: the
   * whole opcode for 0x0nnn, the first and last nibble for 0x5xy0, 0x8xyN
   * and 0x9xy0, the first nibble and low byte for 0xExNN and 0xFxNN, and the
   * first nibble otherwise.
   */
  function FamilyMask(m: bv16): (f: bv16)
    ensures f & 0xF000 == 0xF000
  {
    var family := m & 0xF000;
    if family == 0x0000 then 0xFFFF
    else if family == 0x5000 || family == 0x8000 || family == 0x9000 then 0xF00F
    else if family == 0xE000 || family == 0xF000 then 0xF0FF
    else 0xF000
  }

  /** The opcode's identifying bits under the family of `m` equal `m`. */
  predicate DecodedBy(opcode: bv16, m: bv16)
  {
    opcode & FamilyMask(m) == m
  }

  /** Slot `i` decodes the opcode when the opcode's identifying bits equal its mask. */
  predicate Decodes(masks: seq<bv16>, opcode: bv16, i: nat)
  {
    i < |masks| && DecodedBy(opcode, masks[i])
  }

  /** The first slot from `i` on that decodes the opcode, over every entry of the table. */
  function DecodeFrom(masks: seq<bv16>, opcode: bv16, i: nat): (r: Option<nat>)
    ensures r.Some? ==> i <= r.value < |masks| && Decodes(masks, opcode, r.value)
    decreases |masks| - i
  {
    if i >= |masks| then None
    else if Decodes(masks, opcode, i) then Some(i)
    else DecodeFrom(masks, opcode, i + 1)
  }

  /** The slot the family dispatch selects. */
  function DecodeIndex(masks: seq<bv16>, opcode: bv16): Option<nat>
  {
    DecodeFrom(masks, opcode, 0)
  }

  /** Two masks that both decode one opcode are the same mask. */
  lemma DecodesOneMask(a: bv16, b: bv16, opcode: bv16)
    requires DecodedBy(opcode, a) && DecodedBy(opcode, b)
    ensures a == b
  {
    FamilyOfDecoded(a, opcode);
    FamilyOfDecoded(b, opcode);
    SameFamilySameMask(a, b);
  }

  /** The family mask depends on the family nibble alone. */
  lemma SameFamilySameMask(a: bv16, b: bv16)
    requires a & 0xF000 == b & 0xF000
    ensures FamilyMask(a) == FamilyMask(b)
  {
  }

  /** A mask that decodes an opcode carries the opcode's family nibble. */
  lemma FamilyOfDecoded(m: bv16, opcode: bv16)
    requires DecodedBy(opcode, m)
    ensures m & 0xF000 == opcode & 0xF000
  {
    var f := FamilyMask(m);
    assert (opcode & f) & 0xF000 == opcode & (f & 0xF000);
  }

  /** Two distinct masks never decode the same opcode. */
  lemma DistinctMasksDecodeApart(masks: seq<bv16>, opcode: bv16, i: nat, j: nat)
    requires i < |masks| && j < |masks| && masks[i] != masks[j]
    ensures !(Decodes(masks, opcode, i) && Decodes(masks, opcode, j))
  {
    if Decodes(masks, opcode, i) && Decodes(masks, opcode, j) {
      DecodesOneMask(masks[i], masks[j], opcode);
    }
  }

  /** Two built slots never decode the same opcode. */
  lemma BuiltSlotsDisjoint(opcode: bv16, i: nat, j: nat)
    requires i < j < 34
    ensures !(Decodes(BuiltMasks, opcode, i) && Decodes(BuiltMasks, opcode, j))
  {
    BuiltMasksAre();
    BuiltMasksDistinct(i, j);
    DistinctMasksDecodeApart(BuiltMasks, opcode, i, j);
  }

  /** The scan from `i` reaches a slot `k` that decodes the opcode when no slot in between does. */
  lemma {:induction false} DecodeFromFinds(masks: seq<bv16>, opcode: bv16, i: nat, k: nat)
    requires i <= k < |masks| && Decodes(masks, opcode, k)
    requires forall j | i <= j < k :: !Decodes(masks, opcode, j)
    ensures DecodeFrom(masks, opcode, i) == Some(k)
    decreases k - i
  {
    if i < k {
      DecodeFromFinds(masks, opcode, i + 1, k);
    }
  }

  /**
   * Over the built table the family dispatch selects slot `i` for every
   * opcode whose identifying bits are that slot's mask, for all 34 slots.
   */
  lemma FamilyDispatchSelectsOwnEntry(opcode: bv16, i: nat)
    requires i < |BuiltMasks|
    requires DecodedBy(opcode, BuiltMasks[i])
    ensures DecodeIndex(BuiltMasks, opcode) == Some(i)
  {
    forall j | 0 <= j < i
      ensures !Decodes(BuiltMasks, opcode, j)
    {
      BuiltSlotsDisjoint(opcode, j, i);
    }
    DecodeFromFinds(BuiltMasks, opcode, 0, i);
  }

  /**
   * The scan as written sends each built mask from 0x8001 on to LD Vx,Vy:
   * 0x8A14, ADD VA,V1, runs LD VA,V1.
   */
  lemma ScanMisroutesRegisterOps(i: nat)
    requires 10 <= i < |BuiltMasks|
    ensures FetchIndex(BuiltMasks, BuiltMasks[i]) == Some(9)
    ensures Lookup(BuiltMasks, BuiltHandlers, 0x8A14) == Some(LdVxVy)
  {
    BuiltTableOverflows();
    BuiltTableStartsBuilt([]);
    assert BuiltMasks + [] == BuiltMasks;
    BuiltMasksAre();
    HighSlots(i);
    HighOpcodes(BuiltMasks, BuiltMasks[i]);
    HighOpcodes(BuiltMasks, 0x8A14);
  }

  /** The family dispatch sends 0x8A14 to ADD Vx,Vy and 0xF365 to LD Vx,[I]. */
  lemma FamilyDispatchExamples()
    ensures DecodeIndex(BuiltMasks, 0x8A14) == Some(13) && BuiltHandlers[13] == AddVxVy
    ensures DecodeIndex(BuiltMasks, 0xF365) == Some(33) && BuiltHandlers[33] == LdVxI
  {
    BuiltTableOverflows();
    FamilyDispatchSelectsOwnEntry(0x8A14, 13);
    FamilyDispatchSelectsOwnEntry(0xF365, 33);
  }

  // ---------------------------------------------------------------------
  // Decode and step
  // ---------------------------------------------------------------------

  /**
   * The operand decode of `CC8_Step`: x and y are the second and third
   * nibbles, nnn the low twelve bits, kk the low byte and n the low nibble.
   */
  function Decode(opcode: bv16): (d: Operands)
    ensures d.x < 16 && d.y < 16 && d.n < 16 && d.kk < 256 && d.nnn < 4096
    ensures d.kk == d.y * 16 + d.n && d.nnn == d.x * 256 + d.kk
    ensures opcode == (opcode & 0xF000) + d.nnn
  {
    Operands((opcode >> 8) & 0x0F, (opcode >> 4) & 0x0F, opcode & 0x0FFF, opcode & 0x00FF, opcode & 0x000F)
  }

  /**
   * The register nibbles an opcode decodes to name a V cell of a valid
   * context unless they are 0xF, which lies past the fifteen cells.
   */
  lemma DecodedRegistersInV(ctx: Chip8Context, opcode: bv16)
    requires ctx.Valid()
    ensures Decode(opcode).x as int < ctx.v.Length <==> Decode(opcode).x != 0xF
    ensures Decode(opcode).y as int < ctx.v.Length <==> Decode(opcode).y != 0xF
  {
  }

  /** The INSTRUCTION value a step leaves: 0 for 0x0000, the opcode when dispatched, the invalid marker otherwise. */
  function RecordedInstruction(masks: seq<bv16>, handlers: seq<Handler>, opcode: bv16): (r: bv16)
    requires |masks| == |handlers|
    ensures opcode == 0 ==> r == 0
    ensures opcode != 0 ==> (r == opcode <==> Lookup(masks, handlers, opcode).Some? || opcode == InvalidInstruction)
  {
    if opcode == 0 then 0
    else if Lookup(masks, handlers, opcode).Some? then opcode
    else InvalidInstruction
  }

  /**
   * `CC8_Step`: 0x0000 only clears INSTRUCTION.  Any other opcode is decoded
   * and looked up; a handler found is reported with the decoded operands and
   * INSTRUCTION becomes the opcode, and otherwise INSTRUCTION becomes the
   * invalid marker.  Nothing else in the context changes here.
   */
  method Step(ctx: Chip8Context, lut: InstructionLut, opcode: bv16) returns (executed: Option<Dispatch>)
    requires lut.Valid()
    modifies ctx
    ensures opcode == 0 ==> executed == None
    ensures opcode != 0 ==>
              match Lookup(lut.masks, lut.handlers, opcode)
              case None => executed == None
              case Some(h) => executed == Some(Dispatch(h, Decode(opcode)))
    ensures ctx.instruction == RecordedInstruction(lut.masks, lut.handlers, opcode)
    ensures ctx.pc == old(ctx.pc) && ctx.i == old(ctx.i) && ctx.sp == old(ctx.sp)
    ensures ctx.delay == old(ctx.delay) && ctx.sound == old(ctx.sound) && ctx.keyboard == old(ctx.keyboard)
  {
    if opcode == 0 {
      ctx.instruction := 0;
      return None;
    }
    var operands := Decode(opcode);
    var fetched := lut.FetchInstruction(opcode);
    if fetched.Some? {
      executed := Some(Dispatch(fetched.value, operands));
      ctx.instruction := opcode;
    } else {
      executed := None;
      ctx.instruction := InvalidInstruction;
    }
  }

  /** The opcode at PC: the byte at PC is the high byte and the next one the low byte. */
  function OpcodeAt(high: bv8, low: bv8): (opcode: bv16)
    ensures opcode == (high as bv16) * 256 + (low as bv16)
    ensures opcode >> 8 == high as bv16 && opcode & 0xFF == low as bv16
  {
    ((high as bv16) << 8) | (low as bv16)
  }

  /**
   * `CC8_TickEmulation`: 0 without a context.  Otherwise the opcode at PC is
   * stepped, PC advances by 2 and the result is 1, whether or not the opcode
   * was dispatched.  The two opcode bytes must lie inside RAM.
   */
  method TickEmulation(ctx: Chip8Context?, lut: InstructionLut) returns (r: int, executed: Option<Dispatch>)
    requires lut.Valid()
    requires ctx != null ==> ctx.Valid() && ctx.pc <= 0xFFD
    modifies if ctx == null then {} else {ctx}
    ensures ctx == null ==> r == 0 && executed == None
    ensures ctx != null ==> r == 1 && ctx.pc == old(ctx.pc) + 2
    ensures ctx != null ==>
              var opcode := OpcodeAt(ctx.ram[old(ctx.pc)], ctx.ram[old(ctx.pc) + 1]);
              ctx.instruction == RecordedInstruction(lut.masks, lut.handlers, opcode)
              && executed == (if opcode == 0 then None
                              else match Lookup(lut.masks, lut.handlers, opcode)
                                   case None => None
                                   case Some(h) => Some(Dispatch(h, Decode(opcode))))
    ensures ctx != null ==>
              ctx.i == old(ctx.i) && ctx.sp == old(ctx.sp) && ctx.delay == old(ctx.delay)
              && ctx.sound == old(ctx.sound) && ctx.keyboard == old(ctx.keyboard)
  {
    if ctx == null {
      return 0, None;
    }
    var opcode := OpcodeAt(ctx.ram[ctx.pc], ctx.ram[ctx.pc + 1]);
    executed := Step(ctx, lut, opcode);
    ctx.pc := ctx.pc + 2;
    r := 1;
  }

  /**
   * Over a built table no opcode from 0x1000 up is ever recorded as invalid:
   * each is dispatched to some handler and recorded as itself.
   */
  lemma BuiltTableRecordsHighOpcodes(masks: seq<bv16>, handlers: seq<Handler>, opcode: bv16)
    requires StartsBuilt(masks) && |masks| == |handlers| && 0x1000 <= opcode
    ensures Lookup(masks, handlers, opcode).Some?
    ensures RecordedInstruction(masks, handlers, opcode) == opcode
  {
    if opcode < 0x8000 {
      MiddleOpcodes(masks, opcode);
    } else {
      HighOpcodes(masks, opcode);
    }
  }

  // ---------------------------------------------------------------------
  // Timer, keyboard and program load
  // ---------------------------------------------------------------------

  /** The delay register after one timer tick. */
  function DelayTicked(delay: byte): (r: byte)
    ensures r <= delay
    ensures delay != 0 ==> r == delay - 1
  {
    if delay != 0 then delay - 1 else delay
  }

  /** The delay register after `n` timer ticks. */
  function DelayAfter(delay: byte, n: nat): byte
  {
    if n == 0 then delay else DelayAfter(DelayTicked(delay), n - 1)
  }

  /** The timer counts down to 0 and stays there: it never wraps to 0xFF. */
  lemma {:induction false} DelaySaturates(delay: byte, n: nat)
    ensures DelayAfter(delay, n) == if n <= delay then delay - n else 0
  {
    if n > 0 {
      DelaySaturates(DelayTicked(delay), n - 1);
    }
  }

  /** `CC8_TickDelayTimer`: DELAY decreases by one unless it is 0. */
  method TickDelayTimer(ctx: Chip8Context)
    modifies ctx
    ensures ctx.delay == DelayTicked(old(ctx.delay))
    ensures ctx.pc == old(ctx.pc) && ctx.i == old(ctx.i) && ctx.sp == old(ctx.sp)
    ensures ctx.sound == old(ctx.sound) && ctx.keyboard == old(ctx.keyboard) && ctx.instruction == old(ctx.instruction)
  {
    if ctx.delay != 0 {
      ctx.delay := ctx.delay - 1;
    }
  }

  /** `CC8_SetKeyboardValue`: KEYBOARD takes the key. */
  method SetKeyboardValue(ctx: Chip8Context, key: byte)
    modifies ctx
    ensures ctx.keyboard == key
    ensures ctx.pc == old(ctx.pc) && ctx.i == old(ctx.i) && ctx.sp == old(ctx.sp) && ctx.delay == old(ctx.delay)
    ensures ctx.sound == old(ctx.sound) && ctx.instruction == old(ctx.instruction)
  {
    ctx.keyboard := key;
  }

  /**
   * The byte loops of `CC8_LoadProgram`: `data` goes to `ram` from `start`
   * on, one cell per step, and no other cell changes.
   */
  method CopyInto(ram: array<bv8>, start: nat, data: seq<bv8>)
    requires start + |data| <= ram.Length
    modifies ram
    ensures forall a | 0 <= a < ram.Length ::
              ram[a] == if start <= a < start + |data| then data[a - start] else old(ram[a])
  {
    var addr := start;
    var index := 0;
    while addr < start + |data|
      invariant start <= addr <= start + |data| && index == addr - start
      invariant forall a | 0 <= a < ram.Length ::
                  ram[a] == if start <= a < addr then data[a - start] else old(ram[a])
    {
      ram[addr] := data[index];
      index := index + 1;
      addr := addr + 1;
    }
  }

  /**
   * RAM after a load of `image`: the font from 0x000 on, the image from
   * 0x200 on, every other cell as it was.
   */
  function LoadedRam(ram: seq<bv8>, font: seq<bv8>, image: seq<bv8>): (r: seq<bv8>)
    requires |ram| == MaxRam && |font| <= BootAddress && BootAddress + |image| <= MaxRam
    ensures |r| == MaxRam
    ensures forall a | 0 <= a < MaxRam ::
              r[a] == if a < |font| then font[a]
                      else if BootAddress <= a < BootAddress + |image| then image[a - BootAddress]
                      else ram[a]
  {
    font + ram[|font|..BootAddress] + image + ram[BootAddress + |image|..]
  }

  /**
   * `CC8_LoadProgram`, past the file access: the table is built, and when
   * the file was read PC becomes 0x200, program byte k goes to 0x200 + k and
   * then the 80 font bytes to 0x000..0x04F; the result is the image size.
   * A file that cannot be opened gives 0 after the build.  The image must
   * fit below the end of RAM.
   */
  method LoadProgram(ctx: Chip8Context, lut: InstructionLut, file: Option<seq<bv8>>) returns (size: int)
    requires ctx.Valid() && lut.Valid()
    requires file.Some? ==> BootAddress + |file.value| <= MaxRam
    modifies ctx, ctx.ram, lut
    ensures lut.Valid() && lut.masks == old(lut.masks) + BuiltMasks && lut.handlers == old(lut.handlers) + BuiltHandlers
    ensures file.None? ==> size == 0 && ctx.pc == old(ctx.pc) && ctx.ram[..] == old(ctx.ram[..])
    ensures file.Some? ==>
              size == |file.value| && ctx.pc == BootAddress
              && ctx.ram[..] == LoadedRam(old(ctx.ram[..]), Font(), file.value)
    ensures ctx.i == old(ctx.i) && ctx.sp == old(ctx.sp) && ctx.delay == old(ctx.delay)
    ensures ctx.sound == old(ctx.sound) && ctx.keyboard == old(ctx.keyboard) && ctx.instruction == old(ctx.instruction)
  {
    lut.Build();
    if file.None? {
      return 0;
    }
    var buffer := file.value;
    ctx.pc := BootAddress;

    CopyInto(ctx.ram, BootAddress, buffer);
    var font := Font();
    CopyInto(ctx.ram, 0, font);
    assert ctx.ram[..] == LoadedRam(old(ctx.ram[..]), font, buffer);
    return |buffer|;
  }
}
