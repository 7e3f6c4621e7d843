/** The x86-64 side of register allocation: the mapping between interference
    graph colours and machine locations, and the calling-convention hints
    handed to the (external) graph colourer. */
module RegisterAllocator {
  import opened Wrappers
  import opened X86

  /** `ir_info::color_t`, taken to be a 64-bit integer; every colour used
      here is far inside that range, so it is modelled as `int`. */
  type Color = int

  /** IR value numbers (`ir::value_num_t`). */
  type ValueNum = nat

  /** A colour assignment, `ir_info::InterferenceGraphColors`. */
  type Colors = map<ValueNum, Color>

  datatype AllocError =
    | UnexpectedRegister(reg: int)   // OperandToColor on rsp, rbp or a number outside 0..15
    | UnexpectedOperand(op: Operand) // OperandToColor on an operand that is neither register nor memory
    | TooManyArguments               // "can not handle functions with more than six arguments"
    | TooManyResults                 // "can not handle functions with more than one return value"

  const Int32Min: int := -0x8000_0000
  const Int32Max: int := 0x7fff_ffff

  /** The C++ conversion `int32_t(x)`: two's complement wrap-around. */
  function Int32(x: int): (r: int)
    ensures Int32Min <= r <= Int32Max
    ensures (x - r) % 0x1_0000_0000 == 0
    ensures Int32Min <= x <= Int32Max ==> r == x
  {
    var m := x % 0x1_0000_0000;
    if m <= Int32Max then m else m - 0x1_0000_0000
  }

  /** C++ integer division, which truncates toward zero (Dafny's `/` is Euclidean). */
  function TruncDiv(a: int, b: int): int
    requires b != 0
  {
    var abs := (if a < 0 then -a else a) / (if b < 0 then -b else b);
    if (a < 0) == (b < 0) then abs else -abs
  }

  /** What `disp / -8` yields on a 32-bit displacement: exact on multiples of 8
      and never more than 2^28 in magnitude. */
  lemma TruncDivByMinus8(a: int)
    requires Int32Min <= a <= Int32Max
    ensures a % 8 == 0 ==> TruncDiv(a, -8) * -8 == a
    ensures -0xfff_ffff <= TruncDiv(a, -8) <= 0x1000_0000
  {
    var abs := (if a < 0 then -a else a) / 8;
    assert abs <= 0x1000_0000;
    if a % 8 == 0 {
      if a < 0 {
        assert (-a) % 8 == 0;
        assert abs * 8 == -a;
      } else {
        assert abs * 8 == a;
      }
    }
  }

  /** The colours whose spill slot displacement `-8 * (color - 14)` fits in 32 bits. */
  predicate DispFits(color: Color) {
    Int32Min <= -8 * (color - 14) <= Int32Max
  }

  /** Colours 0..3 are rax, rcx, rdx, rbx; colours 4..13 are registers 6..15
      (skipping rsp and rbp); every other colour is a spill slot below rbp. */
  function ColorAndSizeToOperand(color: Color, size: Size): (r: Operand)
    ensures r.IsRM() && r.size == size
    ensures r.Reg? <==> 0 <= color <= 13
    ensures r.Reg? ==> 0 <= r.reg <= 15 && r.reg != RSP && r.reg != RBP
    ensures r.Mem? ==> r.baseReg == RBP && Int32Min <= r.disp <= Int32Max && r.disp % 8 == 0
    ensures r.Mem? && DispFits(color) ==> r.disp == -8 * (color - 14)
  {
    if 0 <= color <= 3 then
      Reg(size, color)
    else if 4 <= color <= 13 then
      Reg(size, color + 2)
    else
      var disp := -8 * (color - 14);
      Int32KeepsMultiplesOf8(disp);
      Mem(size, RBP, Int32(disp))
  }

  /** The `int32_t` conversion wraps by a multiple of 2^32, so it keeps a
      multiple of 8 one. */
  lemma Int32KeepsMultiplesOf8(x: int)
    requires x % 8 == 0
    ensures Int32(x) % 8 == 0
  {
    var k := (x - Int32(x)) / 0x1_0000_0000;
    assert x - Int32(x) == k * 0x1_0000_0000;
    assert Int32(x) == x - (k * 0x2000_0000) * 8;
  }

  /** The partial inverse of `ColorAndSizeToOperand`. Registers 4 and 5 (rsp
      and rbp), and operands that are neither register nor memory, are
      internal errors. The base register of a memory operand is not looked at. */
  function OperandToColor(op: Operand): (r: Result<Color, AllocError>)
    ensures r.Failure? <==> !op.IsRM() || (op.Reg? && !(0 <= op.reg <= 3 || 6 <= op.reg <= 15))
    ensures r.Success? && op.Reg? ==> 0 <= r.value <= 13
  {
    match op
    case Reg(_, reg) =>
      if 0 <= reg <= 3 then Success(reg)
      else if 6 <= reg <= 15 then Success(reg - 2)
      else Failure(UnexpectedRegister(reg))
    case Mem(_, _, disp) =>
      Success(TruncDiv(disp, -8) + 14)
    case _ =>
      Failure(UnexpectedOperand(op))
  }

  lemma RegisterColorsRoundTrip(color: Color, size: Size)
    requires 0 <= color <= 13
    ensures OperandToColor(ColorAndSizeToOperand(color, size)) == Success(color)
  {
  }

  lemma {:induction false} SpillColorsRoundTrip(color: Color, size: Size)
    requires !(0 <= color <= 13) && DispFits(color)
    ensures OperandToColor(ColorAndSizeToOperand(color, size)) == Success(color)
  {
    var op := ColorAndSizeToOperand(color, size);
    TruncDivByMinus8(op.disp);
    var q := TruncDiv(op.disp, -8);
    assert (q - (color - 14)) * -8 == 0;
  }

  /** Round trip: every colour whose spill displacement fits in 32 bits comes
      back unchanged, whatever the operand size. */
  lemma ColorRoundTrip(color: Color, size: Size)
    requires DispFits(color)
    ensures OperandToColor(ColorAndSizeToOperand(color, size)) == Success(color)
  {
    if 0 <= color <= 13 {
      RegisterColorsRoundTrip(color, size);
    } else {
      SpillColorsRoundTrip(color, size);
    }
  }

  /** The displacement bound is exact: beyond it the `int32_t` conversion wraps
      and the colour does not survive the round trip. */
  lemma {:induction false} ColorRoundTripOnlyWhenDispFits(color: Color, size: Size)
    ensures OperandToColor(ColorAndSizeToOperand(color, size)) == Success(color) <==> DispFits(color)
  {
    if DispFits(color) {
      ColorRoundTrip(color, size);
    } else {
      var op := ColorAndSizeToOperand(color, size);
      TruncDivByMinus8(op.disp);
    }
  }

  /** In the other direction, every register `OperandToColor` accepts is
      rebuilt exactly by `ColorAndSizeToOperand`. */
  lemma RegisterOperandsRoundTrip(op: Operand)
    requires op.Reg? && OperandToColor(op).Success?
    ensures ColorAndSizeToOperand(OperandToColor(op).value, op.size) == op
  {
  }

  /** ... and so is every rbp-based slot at a multiple of 8, except the ones
      at 8..112 above rbp: those are below rbp for non-positive displacements
      (colours 14 and up) and at 120 or more above it (negative colours). */
  lemma {:induction false} SpillOperandsRoundTrip(op: Operand)
    requires op.Mem? && op.baseReg == RBP && Int32Min <= op.disp <= Int32Max && op.disp % 8 == 0
    requires !(8 <= op.disp <= 112)
    ensures ColorAndSizeToOperand(OperandToColor(op).value, op.size) == op
  {
    TruncDivByMinus8(op.disp);
    var q := TruncDiv(op.disp, -8);
    assert -8 * (q + 14 - 14) == op.disp;
  }

  /** The slots 8..112 above rbp decode to the register colours 0..13, so
      `OperandToColor` accepts them but the colour names a register and the
      slot is not rebuilt. */
  lemma {:induction false} SlotsAboveRbpDecodeToRegisters(op: Operand)
    requires op.Mem? && 8 <= op.disp <= 112 && op.disp % 8 == 0
    ensures OperandToColor(op).Success?
    ensures OperandToColor(op).value == 14 - op.disp / 8
    ensures 0 <= OperandToColor(op).value <= 13
    ensures ColorAndSizeToOperand(OperandToColor(op).value, op.size).Reg?
  {
    TruncDivByMinus8(op.disp);
    assert TruncDiv(op.disp, -8) == -(op.disp / 8);
  }

  /** The argument registers of the System V AMD64 calling convention:
      rdi, rsi, rdx, rcx, r8, r9; a seventh argument is an error. */
  function ArgumentRegister(index: nat): (r: Result<Operand, AllocError>)
    ensures r.Success? <==> index < 6
    ensures r.Success? ==> r.value.Reg? && r.value.size == K64
  {
    if index == 0 then Success(Reg(K64, RDI))
    else if index == 1 then Success(Reg(K64, RSI))
    else if index == 2 then Success(Reg(K64, RDX))
    else if index == 3 then Success(Reg(K64, RCX))
    else if index == 4 then Success(Reg(K64, R8))
    else if index == 5 then Success(Reg(K64, R9))
    else Failure(TooManyArguments)
  }

  /** The result register: rax; a second computed result is an error. */
  function ResultRegister(index: nat): (r: Result<Operand, AllocError>)
    ensures r.Success? <==> index == 0
    ensures r.Success? ==> r.value.Reg? && r.value.size == K64
  {
    if index == 0 then Success(Reg(K64, RAX)) else Failure(TooManyResults)
  }

  /** The colours of rdi, rsi, rdx, rcx, r8 and r9. */
  const ArgColors: seq<Color> := [5, 4, 2, 1, 6, 7]

  /** The colour of rax. */
  const ResultColor: Color := 0

  lemma ArgumentRegisterColors(index: nat)
    requires index < 6
    ensures ArgumentRegister(index).Success?
    ensures OperandToColor(ArgumentRegister(index).value) == Success(ArgColors[index])
  {
  }

  // ---------------------------------------------------------------------
  // The part of the IR the allocator reads.

  datatype IrValue = Computed(number: ValueNum) | Constant(bits: int)

  datatype IrInstr = Return(args: seq<IrValue>) | OtherIrInstr(kind: int)

  datatype IrBlock = IrBlock(instrs: seq<IrInstr>)

  /** A function: the value numbers of its arguments and its blocks. */
  datatype IrFunc = IrFunc(args: seq<ValueNum>, blocks: seq<IrBlock>)

  /** `block->instrs().back()` is undefined on an empty block, so every block
      the allocator visits holds at least one instruction. */
  predicate BlocksNonEmpty(func: IrFunc) {
    forall b :: b in func.blocks ==> |b.instrs| > 0
  }

  /** The interference graph is only passed through to the colourer. */
  datatype InterferenceGraph = InterferenceGraph(edges: set<(ValueNum, ValueNum)>)

  /** The external colourer `ir_proc::ColorInterferenceGraph`. */
  type Colorer = (InterferenceGraph, Colors) -> Colors

  // ---------------------------------------------------------------------
  // Specification of the hints.

  /** The hints after `SetColor` on each argument in turn, later writes winning. */
  function WithArgHints(colors: Colors, args: seq<ValueNum>): Colors
    requires |args| <= 6
  {
    if args == [] then colors
    else WithArgHints(colors, args[..|args| - 1])[args[|args| - 1] := ArgColors[|args| - 1]]
  }

  function ArgHints(colors: Colors, args: seq<ValueNum>): Result<Colors, AllocError> {
    if |args| > 6 then Failure(TooManyArguments) else Success(WithArgHints(colors, args))
  }

  /** The hints after visiting the operands of one return instruction in turn. */
  function ResultHints(colors: Colors, results: seq<IrValue>): Result<Colors, AllocError> {
    if results == [] then Success(colors)
    else
      var n := |results| - 1;
      match ResultHints(colors, results[..n])
      case Failure(e) => Failure(e)
      case Success(m) =>
        if results[n].Constant? then Success(m)
        else if n >= 1 then Failure(TooManyResults)
        else Success(m[results[n].number := ResultColor])
  }

  /** The operand lists of the return instructions that end blocks, in block order. */
  function ReturnOperandLists(blocks: seq<IrBlock>): seq<seq<IrValue>>
    requires forall b :: b in blocks ==> |b.instrs| > 0
  {
    if blocks == [] then []
    else
      var b := blocks[|blocks| - 1];
      var last := b.instrs[|b.instrs| - 1];
      ReturnOperandLists(blocks[..|blocks| - 1]) + (if last.Return? then [last.args] else [])
  }

  function AllResultHints(colors: Colors, lists: seq<seq<IrValue>>): Result<Colors, AllocError> {
    if lists == [] then Success(colors)
    else
      match AllResultHints(colors, lists[..|lists| - 1])
      case Failure(e) => Failure(e)
      case Success(m) => ResultHints(m, lists[|lists| - 1])
  }

  /** The preferred colours of a function: argument hints first, then the
      result hints of every block that ends in a return, in block order. */
  function PreferredColors(func: IrFunc): Result<Colors, AllocError>
    requires BlocksNonEmpty(func)
  {
    match ArgHints(map[], func.args)
    case Failure(e) => Failure(e)
    case Success(m) => AllResultHints(m, ReturnOperandLists(func.blocks))
  }

  // ---------------------------------------------------------------------
  // The allocator itself.

  method AddPreferredColorsForFuncArgs(func: IrFunc, colors: Colors) returns (r: Result<Colors, AllocError>)
    ensures r == ArgHints(colors, func.args)
  {
    var hints := colors;
    var argIndex := 0;
    while argIndex < |func.args|
      invariant 0 <= argIndex <= |func.args| && argIndex <= 6
      invariant hints == WithArgHints(colors, func.args[..argIndex])
    {
      var argValue := func.args[argIndex];
      var argOperand := ArgumentRegister(argIndex);
      if argOperand.Failure? {
        return Failure(argOperand.error);
      }
      ArgumentRegisterColors(argIndex);
      var color := OperandToColor(argOperand.value).value;
      assert func.args[..argIndex + 1][..argIndex] == func.args[..argIndex];
      hints := hints[argValue := color];
      argIndex := argIndex + 1;
    }
    assert func.args[..argIndex] == func.args;
    r := Success(hints);
  }

  method AddPreferredColorsForFuncResults(returnArgs: seq<IrValue>, colors: Colors)
    returns (r: Result<Colors, AllocError>)
    ensures r == ResultHints(colors, returnArgs)
  {
    var hints := colors;
    var resultIndex := 0;
    while resultIndex < |returnArgs|
      invariant 0 <= resultIndex <= |returnArgs|
      invariant ResultHints(colors, returnArgs[..resultIndex]) == Success(hints)
    {
      assert returnArgs[..resultIndex + 1][..resultIndex] == returnArgs[..resultIndex];
      var v := returnArgs[resultIndex];
      if v.Constant? {
        resultIndex := resultIndex + 1;
        continue;
      }
      var resultOperand := ResultRegister(resultIndex);
      if resultOperand.Failure? {
        ResultHintsFailureSticks(colors, returnArgs[..resultIndex + 1], returnArgs[resultIndex + 1..]);
        assert returnArgs == returnArgs[..resultIndex + 1] + returnArgs[resultIndex + 1..];
        return Failure(resultOperand.error);
      }
      var color := OperandToColor(resultOperand.value).value;
      hints := hints[v.number := color];
      resultIndex := resultIndex + 1;
    }
    assert returnArgs[..resultIndex] == returnArgs;
    r := Success(hints);
  }

  /** Computes the hints and hands them, with the unchanged graph, to the colourer. */
  method AllocateRegistersInFunc(func: IrFunc, graph: InterferenceGraph, colorer: Colorer)
    returns (r: Result<Colors, AllocError>)
    requires BlocksNonEmpty(func)
    ensures PreferredColors(func).Failure? ==> r == Failure(PreferredColors(func).error)
    ensures PreferredColors(func).Success? ==> r == Success(colorer(graph, PreferredColors(func).value))
  {
    var preferred := AddPreferredColorsForFuncArgs(func, map[]);
    if preferred.Failure? {
      return Failure(preferred.error);
    }
    var hints := preferred.value;
    var i := 0;
    while i < |func.blocks|
      invariant 0 <= i <= |func.blocks|
      invariant AllResultHints(preferred.value, ReturnOperandLists(func.blocks[..i])) == Success(hints)
    {
      var block := func.blocks[i];
      var lastInstr := block.instrs[|block.instrs| - 1];
      ReturnOperandListsStep(func.blocks, i);
      if !lastInstr.Return? {
        assert ReturnOperandLists(func.blocks[..i + 1]) == ReturnOperandLists(func.blocks[..i]) + [];
        assert ReturnOperandLists(func.blocks[..i]) + [] == ReturnOperandLists(func.blocks[..i]);
        i := i + 1;
        continue;
      }
      var withResults := AddPreferredColorsForFuncResults(lastInstr.args, hints);
      ghost var lists := ReturnOperandLists(func.blocks[..i]);
      assert (lists + [lastInstr.args])[..|lists|] == lists;
      if withResults.Failure? {
        AllResultHintsFailsAt(preferred.value, func.blocks, i + 1);
        return Failure(withResults.error);
      }
      hints := withResults.value;
      i := i + 1;
    }
    assert func.blocks[..i] == func.blocks;
    r := Success(colorer(graph, hints));
  }

  // ---------------------------------------------------------------------
  // Properties of the hints.

  /** Argument i is hinted to the colour of the i-th argument register; when a
      value number occurs twice the later argument wins; nothing else changes. */
  lemma {:induction false} ArgHintsPlacement(colors: Colors, args: seq<ValueNum>)
    requires |args| <= 6
    ensures WithArgHints(colors, args).Keys == colors.Keys + (set a | a in args)
    ensures forall v :: v in colors && v !in args ==> WithArgHints(colors, args)[v] == colors[v]
    ensures forall i :: 0 <= i < |args| && args[i] !in args[i + 1..] ==>
      WithArgHints(colors, args)[args[i]] == ArgColors[i]
  {
    if args != [] {
      var n := |args| - 1;
      var prefix := args[..n];
      ArgHintsPlacement(colors, prefix);
      assert args == prefix + [args[n]];
      forall i | 0 <= i < |args| && args[i] !in args[i + 1..]
        ensures WithArgHints(colors, args)[args[i]] == ArgColors[i]
      {
        if i < n {
          assert args[n] in args[i + 1..];
          assert prefix[i + 1..] <= args[i + 1..];
          assert prefix[i] !in prefix[i + 1..];
        }
      }
    }
  }

  /** Seven or more arguments are rejected; six or fewer never are. */
  lemma ArgHintsFailure(colors: Colors, args: seq<ValueNum>)
    ensures ArgHints(colors, args).Failure? <==> |args| > 6
    ensures ArgHints(colors, args).Failure? ==> ArgHints(colors, args).error == TooManyArguments
  {
  }

  /** The value numbers a list of return operands hints to rax: the first
      operand, when it is computed. */
  function ReturnedValue(results: seq<IrValue>): set<ValueNum> {
    if |results| > 0 && results[0].Computed? then {results[0].number} else {}
  }

  /** A return fails exactly when it has a computed operand at a position other
      than 0; constants are skipped wherever they are; otherwise only the
      computed operand at position 0 is hinted, to rax. */
  lemma {:induction false} ResultHintsOutcome(colors: Colors, results: seq<IrValue>)
    ensures ResultHints(colors, results).Success? <==>
      forall i :: 1 <= i < |results| ==> results[i].Constant?
    ensures ResultHints(colors, results).Failure? ==> ResultHints(colors, results).error == TooManyResults
    ensures ResultHints(colors, results).Success? ==>
      ResultHints(colors, results).value ==
        if |results| > 0 && results[0].Computed? then colors[results[0].number := ResultColor] else colors
  {
    if results != [] {
      var n := |results| - 1;
      ResultHintsOutcome(colors, results[..n]);
      assert forall i :: 1 <= i < n ==> results[..n][i] == results[i];
    }
  }

  /** A block contributes result hints exactly when its last instruction is a return. */
  lemma {:induction false} ReturnOperandListsMembers(blocks: seq<IrBlock>, l: seq<IrValue>)
    requires forall b :: b in blocks ==> |b.instrs| > 0
    ensures l in ReturnOperandLists(blocks) <==>
      exists b :: b in blocks && b.instrs[|b.instrs| - 1] == Return(l)
  {
    if blocks != [] {
      var n := |blocks| - 1;
      ReturnOperandListsMembers(blocks[..n], l);
      assert blocks == blocks[..n] + [blocks[n]];
    }
  }

  /** The rax hints of a sequence of returns. */
  function ReturnedValues(lists: seq<seq<IrValue>>): set<ValueNum> {
    if lists == [] then {} else ReturnedValues(lists[..|lists| - 1]) + ReturnedValue(lists[|lists| - 1])
  }

  lemma {:induction false} AllResultHintsOutcome(colors: Colors, lists: seq<seq<IrValue>>)
    ensures AllResultHints(colors, lists).Success? <==>
      forall l: seq<IrValue>, i :: l in lists && 1 <= i < |l| ==> l[i].Constant?
    ensures AllResultHints(colors, lists).Success? ==>
      && AllResultHints(colors, lists).value.Keys == colors.Keys + ReturnedValues(lists)
      && (forall v :: v in ReturnedValues(lists) ==> AllResultHints(colors, lists).value[v] == ResultColor)
      && (forall v :: v in colors && v !in ReturnedValues(lists) ==> AllResultHints(colors, lists).value[v] == colors[v])
  {
    if lists != [] {
      var n := |lists| - 1;
      AllResultHintsOutcome(colors, lists[..n]);
      assert lists == lists[..n] + [lists[n]];
      match AllResultHints(colors, lists[..n])
      case Failure(_) =>
      case Success(m) =>
        ResultHintsOutcome(m, lists[n]);
    }
  }

  lemma {:induction false} ReturnedValuesMembers(lists: seq<seq<IrValue>>, v: ValueNum)
    ensures v in ReturnedValues(lists) <==> exists l :: l in lists && |l| > 0 && l[0] == Computed(v)
  {
    if lists != [] {
      var n := |lists| - 1;
      ReturnedValuesMembers(lists[..n], v);
      assert lists == lists[..n] + [lists[n]];
    }
  }

  /** A block that ends in a return with a computed operand after the first. */
  predicate ReturnsSecondComputed(b: IrBlock)
    requires |b.instrs| > 0
  {
    var last := b.instrs[|b.instrs| - 1];
    last.Return? && exists i :: 1 <= i < |last.args| && last.args[i].Computed?
  }

  /** The calling-convention shape check: allocation fails exactly for more
      than six arguments, or for a return with a computed operand after the first. */
  lemma PreferredColorsFailure(func: IrFunc)
    requires BlocksNonEmpty(func)
    ensures PreferredColors(func).Failure? <==>
      |func.args| > 6 || exists b :: b in func.blocks && ReturnsSecondComputed(b)
  {
    if |func.args| <= 6 {
      var m := WithArgHints(map[], func.args);
      var lists := ReturnOperandLists(func.blocks);
      AllResultHintsOutcome(m, lists);
      forall l | l in lists
        ensures exists b :: b in func.blocks && b.instrs[|b.instrs| - 1] == Return(l)
      {
        ReturnOperandListsMembers(func.blocks, l);
      }
      forall b | b in func.blocks && b.instrs[|b.instrs| - 1].Return?
        ensures b.instrs[|b.instrs| - 1].args in lists
      {
        ReturnOperandListsMembers(func.blocks, b.instrs[|b.instrs| - 1].args);
      }
    }
  }

  /** On success: a value returned first by some return is hinted to rax, even
      when it is also an argument (result hints come after argument hints); an
      argument returned nowhere keeps its argument register's colour; and
      nothing else is hinted. */
  lemma PreferredColorsPlacement(func: IrFunc)
    requires BlocksNonEmpty(func) && PreferredColors(func).Success?
    ensures var hints := PreferredColors(func).value;
      var returned := ReturnedValues(ReturnOperandLists(func.blocks));
      && hints.Keys == (set a | a in func.args) + returned
      && (forall v :: v in returned ==> hints[v] == ResultColor)
      && (forall i :: 0 <= i < |func.args| && func.args[i] !in func.args[i + 1..] && func.args[i] !in returned ==>
            hints[func.args[i]] == ArgColors[i])
  {
    var m := WithArgHints(map[], func.args);
    ArgHintsPlacement(map[], func.args);
    AllResultHintsOutcome(m, ReturnOperandLists(func.blocks));
  }

  // ---------------------------------------------------------------------
  // Helper facts about the fold functions.

  lemma {:induction false} ReturnOperandListsAppend(a: seq<IrBlock>, b: seq<IrBlock>)
    requires forall x :: x in a ==> |x.instrs| > 0
    requires forall x :: x in b ==> |x.instrs| > 0
    ensures ReturnOperandLists(a + b) == ReturnOperandLists(a) + ReturnOperandLists(b)
    decreases |b|
  {
    if b == [] {
      assert a + b == a;
    } else {
      var n := |b| - 1;
      assert (a + b)[..|a + b| - 1] == a + b[..n];
      ReturnOperandListsAppend(a, b[..n]);
    }
  }

  lemma {:induction false} AllResultHintsFailureSticks(colors: Colors, a: seq<seq<IrValue>>, b: seq<seq<IrValue>>)
    requires AllResultHints(colors, a).Failure?
    ensures AllResultHints(colors, a + b) == AllResultHints(colors, a)
    decreases |b|
  {
    if b == [] {
      assert a + b == a;
    } else {
      assert (a + b)[..|a + b| - 1] == a + b[..|b| - 1];
      AllResultHintsFailureSticks(colors, a, b[..|b| - 1]);
    }
  }

  lemma {:induction false} ResultHintsFailureSticks(colors: Colors, a: seq<IrValue>, b: seq<IrValue>)
    requires ResultHints(colors, a).Failure?
    ensures ResultHints(colors, a + b) == ResultHints(colors, a)
    decreases |b|
  {
    if b == [] {
      assert a + b == a;
    } else {
      assert (a + b)[..|a + b| - 1] == a + b[..|b| - 1];
      ResultHintsFailureSticks(colors, a, b[..|b| - 1]);
    }
  }

  lemma ReturnOperandListsStep(blocks: seq<IrBlock>, i: nat)
    requires i < |blocks| && forall b :: b in blocks ==> |b.instrs| > 0
    ensures var last := blocks[i].instrs[|blocks[i].instrs| - 1];
      ReturnOperandLists(blocks[..i + 1])
        == ReturnOperandLists(blocks[..i]) + (if last.Return? then [last.args] else [])
  {
    assert blocks[..i + 1][..i] == blocks[..i];
  }

  /** Once the hints of a prefix of the blocks fail, those of all blocks fail the same way. */
  lemma AllResultHintsFailsAt(colors: Colors, blocks: seq<IrBlock>, i: nat)
    requires i <= |blocks| && forall b :: b in blocks ==> |b.instrs| > 0
    requires AllResultHints(colors, ReturnOperandLists(blocks[..i])).Failure?
    ensures AllResultHints(colors, ReturnOperandLists(blocks)) == AllResultHints(colors, ReturnOperandLists(blocks[..i]))
  {
    assert blocks == blocks[..i] + blocks[i..];
    ReturnOperandListsAppend(blocks[..i], blocks[i..]);
    AllResultHintsFailureSticks(colors, ReturnOperandLists(blocks[..i]), ReturnOperandLists(blocks[i..]));
  }
}
