/** Move generation for the IR-to-x86-64 translator: a move between two
    locations is elided, emitted directly, or routed through a scratch
    register when x86-64 cannot encode it directly. */
module MovGenerator {
  import opened X86

  /** What `TemporaryReg::ForOperand` hands back: the scratch register, the
      instructions it emitted to free and load that register, and the
      instructions its `Restore` emits afterwards. How the register is chosen,
      saved and restored is not part of this model. */
  datatype TemporaryReg = TemporaryReg(reg: Operand, acquire: seq<Instr>, restore: seq<Instr>)

  /** `TemporaryReg::ForOperand(origin, can_be_result_reg, ...)`. */
  type TemporaryRegProvider = (Operand, bool) -> TemporaryReg

  /** The guarantee `TemporaryReg` gives when asked with `can_be_result_reg`
      false: a register, and not the register the result lives in. */
  ghost predicate KeepsClearOfResult(provider: TemporaryRegProvider, result: Operand) {
    forall origin :: provider(origin, false).reg.Reg? &&
      (result.Reg? ==> provider(origin, false).reg.reg != result.reg)
  }

  /** The x86-64 block a translator is appending to (`ctx.x86_64_block()`). */
  class X86Block {
    var instrs: seq<Instr>

    constructor ()
      ensures instrs == []
    {
      instrs := [];
    }

    method AddInstr(instr: Instr)
      modifies this
      ensures instrs == old(instrs) + [instr]
    {
      instrs := instrs + [instr];
    }
  }

  /** `mov` cannot take a 64-bit immediate or copy memory to memory. */
  predicate NeedsTemporary(result: Operand, origin: Operand) {
    origin.IsImm64() || (result.Mem? && origin.Mem?)
  }

  /** The one `Mov` that `GenerateMov` itself emits for a move that is not elided. */
  function OwnMov(result: Operand, origin: Operand, tmp: TemporaryReg): (m: Instr)
    requires result != origin
    ensures m.Mov? && m.dst == result
    ensures m.src == origin || m.src == tmp.reg
  {
    if NeedsTemporary(result, origin) then Mov(result, tmp.reg) else Mov(result, origin)
  }

  /** Everything appended to the block for one move. */
  function MovInstrs(result: Operand, origin: Operand, tmp: TemporaryReg): seq<Instr> {
    if result == origin then []
    else if NeedsTemporary(result, origin) then tmp.acquire + [OwnMov(result, origin, tmp)] + tmp.restore
    else [OwnMov(result, origin, tmp)]
  }

  /** Appends the move `result := origin` to the block; the scratch register
      is requested with `can_be_result_reg` false. */
  method GenerateMov(result: Operand, origin: Operand, provider: TemporaryRegProvider, block: X86Block)
    requires result.IsRM()
    modifies block
    ensures block.instrs == old(block.instrs) + MovInstrs(result, origin, provider(origin, false))
  {
    if result == origin {
      return;
    }
    if (origin.Imm? && origin.size == K64) || (result.Mem? && origin.Mem?) {
      var tmp := provider(origin, false);
      block.instrs := block.instrs + tmp.acquire;
      block.AddInstr(Mov(result, tmp.reg));
      block.instrs := block.instrs + tmp.restore;
    } else {
      block.AddInstr(Mov(result, origin));
    }
  }

  // ---------------------------------------------------------------------
  // Properties.

  /** A move is elided exactly when its operands are equal. */
  lemma ElidedIffEqual(result: Operand, origin: Operand, tmp: TemporaryReg)
    ensures MovInstrs(result, origin, tmp) == [] <==> result == origin
  {
  }

  /** A move that needs no scratch register is exactly one `Mov(result, origin)`. */
  lemma DirectMov(result: Operand, origin: Operand, tmp: TemporaryReg)
    requires result != origin && !origin.IsImm64() && !(result.Mem? && origin.Mem?)
    ensures MovInstrs(result, origin, tmp) == [Mov(result, origin)]
  {
  }

  /** A 64-bit immediate or a memory-to-memory move goes through the scratch
      register, even when the destination is a register; anything else
      appended comes from acquiring and restoring it. */
  lemma MovThroughTemporary(result: Operand, origin: Operand, tmp: TemporaryReg)
    requires result != origin && (origin.IsImm64() || (result.Mem? && origin.Mem?))
    ensures MovInstrs(result, origin, tmp) == tmp.acquire + [Mov(result, tmp.reg)] + tmp.restore
  {
  }

  /** The `Mov` this function emits is always encodable: never memory to
      memory and never from a 64-bit immediate, provided the scratch is a register. */
  lemma OwnMovEncodable(result: Operand, origin: Operand, tmp: TemporaryReg)
    requires result != origin && tmp.reg.Reg?
    ensures !(OwnMov(result, origin, tmp).dst.Mem? && OwnMov(result, origin, tmp).src.Mem?)
    ensures !OwnMov(result, origin, tmp).src.IsImm64()
  {
  }

  /** Because the scratch register is requested with `can_be_result_reg`
      false, the emitted `Mov` never reads from the register it writes. This
      carries the provider's guarantee, `KeepsClearOfResult`, through `OwnMov`:
      whenever a scratch register is needed, the `Mov`'s source is it. */
  lemma TemporaryIsNotResult(result: Operand, origin: Operand, provider: TemporaryRegProvider)
    requires KeepsClearOfResult(provider, result)
    requires result != origin && NeedsTemporary(result, origin)
    ensures OwnMov(result, origin, provider(origin, false)).src.Reg?
    ensures result.Reg? ==> OwnMov(result, origin, provider(origin, false)).src.reg != result.reg
  {
  }
}
