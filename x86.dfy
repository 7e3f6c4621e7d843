/** Vocabulary of the x86-64 back end: operand sizes, operands and the few
    instruction variants the translator emits. Encoding and text rendering
    are not modelled; instructions are pure data. */
module X86 {

  /** Operand sizes in bits: `x86_64::Size`. */
  datatype Size = K8 | K16 | K32 | K64

  /** Register numbers follow the hardware encoding:
      0 rax, 1 rcx, 2 rdx, 3 rbx, 4 rsp, 5 rbp, 6 rsi, 7 rdi, 8..15 r8..r15. */
  const RAX: int := 0
  const RCX: int := 1
  const RDX: int := 2
  const RBX: int := 3
  const RSP: int := 4
  const RBP: int := 5
  const RSI: int := 6
  const RDI: int := 7
  const R8: int := 8
  const R9: int := 9

  /** `x86_64::Operand`: a register, a memory location `[base + disp]`, an
      immediate, or an unresolved reference to a function or a block. */
  datatype Operand =
    | Reg(size: Size, reg: int)
    | Mem(size: Size, baseReg: int, disp: int)
    | Imm(size: Size, value: int)
    | FuncRef(funcId: int)
    | BlockRef(blockId: int)
  {
    /** `x86_64::RM`: an operand that is a register or a memory location. */
    predicate IsRM() {
      Reg? || Mem?
    }

    /** A 64-bit immediate, which no `mov` to memory can take as its source. */
    predicate IsImm64() {
      Imm? && size == K64
    }
  }

  /** Condition codes of `setcc`/`jcc`, kept abstract. */
  type Cond = int

  /** The instruction variants of the data-movement group (`Mov`, `Xchg`,
      `Push`, `Pop`, `Setcc`); every other opcode is `OtherInstr`. */
  datatype Instr =
    | Mov(dst: Operand, src: Operand)
    | Xchg(a: Operand, b: Operand)
    | Push(op: Operand)
    | Pop(op: Operand)
    | Setcc(cond: Cond, op: Operand)
    | OtherInstr(opcode: int)
}
