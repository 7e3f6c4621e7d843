/** The language-level IR checker: the validation rules for the language's
    own instructions (shared and unique pointers, strings) and its
    refinements of the base checker's load, store and mov rules. Every check
    appends issue kinds to the issue tracker in a fixed order. */
module IrChecker {
  import opened Wrappers

  datatype IntType = I8 | I16 | I32 | I64 | U8 | U16 | U32 | U64

  /** The IR types the checker distinguishes. Types are interned, so the
      source's pointer comparisons and `ir::IsEqual` are both structural
      equality here. */
  datatype IrType =
    | BoolType
    | IntegerType(width: IntType)
    | PointerType
    | FuncType
    | SharedPointer(strong: bool, element: IrType)
    | UniquePointer(element: IrType)
    | StringType
    | OtherLangType(id: nat)   // arrays, structs, interfaces, type ids

  const I64Type: IrType := IntegerType(I64)
  const I8Type: IrType := IntegerType(I8)

  /** A value; `irType` is `None` for a value without a type (`type() == nullptr`). */
  datatype Value = Computed(number: nat, irType: Option<IrType>) | Constant(bits: int, irType: Option<IrType>)

  /** `ir::NilPointer()`: the pointer constant 0. */
  const NilPointer: Value := Constant(0, Some(PointerType))

  predicate HasType(v: Value, t: IrType) {
    v.irType == Some(t)
  }

  predicate IsSharedPointer(v: Value) {
    v.irType.Some? && v.irType.value.SharedPointer?
  }

  predicate IsUniquePointer(v: Value) {
    v.irType.Some? && v.irType.value.UniquePointer?
  }

  datatype Instr =
    | LangPanic
    | MakeSharedPointer(result: Value, size: Value)
    | CopySharedPointer(result: Value, copied: Value, offset: Value)
    | DeleteSharedPointer(deleted: Value)
    | MakeUniquePointer(result: Value, size: Value)
    | DeleteUniquePointer(deleted: Value)
    | StringIndex(result: Value, stringOperand: Value, indexOperand: Value)
    | StringConcat(result: Value, operands: seq<Value>)
    | Load(result: Value, address: Option<Value>)        // `None`: a null address
    | Store(address: Option<Value>, stored: Value)
    | Mov(result: Value, origin: Value)
    | OtherInstr(kind: nat)

  /** The source reads `type()->type_kind()` of these values without a null
      check, so they carry a type. */
  predicate KindsReadable(instr: Instr) {
    match instr
    case MakeSharedPointer(result, _) => result.irType.Some?
    case CopySharedPointer(result, copied, _) => result.irType.Some? && copied.irType.Some?
    case DeleteSharedPointer(deleted) => deleted.irType.Some?
    case MakeUniquePointer(result, _) => result.irType.Some?
    case DeleteUniquePointer(deleted) => deleted.irType.Some?
    case Mov(result, _) => result.irType.Some?
    case _ => true
  }

  datatype IssueKind =
    | MakeSharedPointerResultDoesNotHaveSharedPointerType
    | MakeSharedPointerResultIsNotAStrongSharedPointer
    | MakeSharedPointerSizeDoesNotHaveI64Type
    | CopySharedPointerResultDoesNotHaveSharedPointerType
    | CopySharedPointerCopiedDoesNotHaveSharedPointerType
    | CopySharedPointerOffsetDoesNotHaveI64Type
    | CopySharedPointerResultAndCopiedHaveDifferentElementTypes
    | CopySharedPointerConvertsFromWeakToStrongSharedPointer
    | DeleteSharedPointerArgumentDoesNotHaveSharedPointerType
    | MakeUniquePointerResultDoesNotHaveUniquePointerType
    | MakeUniquePointerSizeDoesNotHaveI64Type
    | DeleteUniquePointerArgumentDoesNotHaveUniquePointerType
    | LoadFromSmartPointerHasMismatchedElementType
    | StoreToSmartPointerHasMismatchedElementType
    | StringIndexResultDoesNotHaveI8Type
    | StringIndexStringOperandDoesNotHaveStringType
    | StringIndexIndexOperandDoesNotHaveI64Type
    | StringConcatResultDoesNotHaveStringType
    | StringConcatDoesNotHaveArguments
    | StringConcatOperandDoesNotHaveStringType
    | BaseIssue(code: nat)   // an issue raised by the base IR checker

  /** The base checker's own rules (`::ir_check::Checker`), which are not part
      of this model: the issues it raises for an instruction it checks. */
  type BaseRules = Instr -> seq<IssueKind>

  // ---------------------------------------------------------------------
  // What each check reports.

  /** `[kind]` when `condition` holds, else nothing. */
  function Flag(condition: bool, kind: IssueKind): seq<IssueKind> {
    if condition then [kind] else []
  }

  function MakeSharedPointerIssues(result: Value, size: Value): seq<IssueKind>
    requires result.irType.Some?
  {
    Flag(!IsSharedPointer(result), MakeSharedPointerResultDoesNotHaveSharedPointerType)
    + Flag(IsSharedPointer(result) && !result.irType.value.strong, MakeSharedPointerResultIsNotAStrongSharedPointer)
    + Flag(!HasType(size, I64Type), MakeSharedPointerSizeDoesNotHaveI64Type)
  }

  /** The checks on the operands' own types; they always run. */
  function CopyOperandIssues(result: Value, copied: Value, offset: Value): seq<IssueKind> {
    Flag(!IsSharedPointer(result), CopySharedPointerResultDoesNotHaveSharedPointerType)
    + Flag(!IsSharedPointer(copied), CopySharedPointerCopiedDoesNotHaveSharedPointerType)
    + Flag(!HasType(offset, I64Type), CopySharedPointerOffsetDoesNotHaveI64Type)
  }

  /** The checks comparing two shared pointer types. */
  function CopyPointerPairIssues(copy: IrType, copiedType: IrType): seq<IssueKind>
    requires copy.SharedPointer? && copiedType.SharedPointer?
  {
    Flag(copy.element != copiedType.element, CopySharedPointerResultAndCopiedHaveDifferentElementTypes)
    + Flag(copy.strong && !copiedType.strong, CopySharedPointerConvertsFromWeakToStrongSharedPointer)
  }

  function CopySharedPointerIssues(result: Value, copied: Value, offset: Value): seq<IssueKind> {
    CopyOperandIssues(result, copied, offset)
    + if IsSharedPointer(result) && IsSharedPointer(copied)
      then CopyPointerPairIssues(result.irType.value, copied.irType.value)
      else []
  }

  function StringIndexIssues(result: Value, stringOperand: Value, indexOperand: Value): seq<IssueKind> {
    Flag(!HasType(result, I8Type), StringIndexResultDoesNotHaveI8Type)
    + Flag(!HasType(stringOperand, StringType), StringIndexStringOperandDoesNotHaveStringType)
    + Flag(!HasType(indexOperand, I64Type), StringIndexIndexOperandDoesNotHaveI64Type)
  }

  /** One issue per operand that is not a string, in operand order. */
  function ConcatOperandIssues(operands: seq<Value>): seq<IssueKind> {
    if operands == [] then [] else
    ConcatOperandIssues(operands[..|operands| - 1])
      + Flag(!HasType(operands[|operands| - 1], StringType), StringConcatOperandDoesNotHaveStringType)
  }

  function StringConcatIssues(result: Value, operands: seq<Value>): seq<IssueKind> {
    Flag(!HasType(result, StringType), StringConcatResultDoesNotHaveStringType)
    + Flag(operands == [], StringConcatDoesNotHaveArguments)
    + ConcatOperandIssues(operands)
  }

  /** A load or store whose address is a typed shared or unique pointer is
      checked by the language rules; any other goes to the base rules. */
  predicate ThroughSmartPointer(address: Option<Value>) {
    address.Some? && (IsSharedPointer(address.value) || IsUniquePointer(address.value))
  }

  function LoadIssues(instr: Instr, base: BaseRules): seq<IssueKind>
    requires instr.Load?
  {
    if !ThroughSmartPointer(instr.address) then base(instr)
    else Flag(instr.result.irType != Some(instr.address.value.irType.value.element),
              LoadFromSmartPointerHasMismatchedElementType)
  }

  function StoreIssues(instr: Instr, base: BaseRules): seq<IssueKind>
    requires instr.Store?
  {
    if !ThroughSmartPointer(instr.address) then base(instr)
    else Flag(instr.stored != NilPointer && instr.stored.irType != Some(instr.address.value.irType.value.element),
              StoreToSmartPointerHasMismatchedElementType)
  }

  function MovIssues(instr: Instr, base: BaseRules): seq<IssueKind>
    requires instr.Mov? && instr.result.irType.Some?
  {
    if (IsSharedPointer(instr.result) || IsUniquePointer(instr.result)) && instr.origin == NilPointer then []
    else base(instr)
  }

  /** Everything the language checker reports for one instruction. Load, store
      and mov reach the language rules through the base checker's dispatch. */
  function InstrIssues(instr: Instr, base: BaseRules): seq<IssueKind>
    requires KindsReadable(instr)
  {
    match instr
    case LangPanic => []
    case MakeSharedPointer(result, size) => MakeSharedPointerIssues(result, size)
    case CopySharedPointer(result, copied, offset) => CopySharedPointerIssues(result, copied, offset)
    case DeleteSharedPointer(deleted) =>
      Flag(!IsSharedPointer(deleted), DeleteSharedPointerArgumentDoesNotHaveSharedPointerType)
    case MakeUniquePointer(result, size) =>
      Flag(!IsUniquePointer(result), MakeUniquePointerResultDoesNotHaveUniquePointerType)
      + Flag(!HasType(size, I64Type), MakeUniquePointerSizeDoesNotHaveI64Type)
    case DeleteUniquePointer(deleted) =>
      Flag(!IsUniquePointer(deleted), DeleteUniquePointerArgumentDoesNotHaveUniquePointerType)
    case StringIndex(result, s, i) => StringIndexIssues(result, s, i)
    case StringConcat(result, operands) => StringConcatIssues(result, operands)
    case Load(_, _) => LoadIssues(instr, base)
    case Store(_, _) => StoreIssues(instr, base)
    case Mov(_, _) => MovIssues(instr, base)
    case OtherInstr(_) => base(instr)
  }

  // ---------------------------------------------------------------------
  // Properties of the rules.

  /** A `make_shared` result is flagged either as no shared pointer or as a
      weak one, never both; the size check is independent of it. A strong
      shared pointer of I64 size passes. */
  lemma MakeSharedPointerOutcome(result: Value, size: Value)
    requires result.irType.Some?
    ensures var r := MakeSharedPointerIssues(result, size);
      && (MakeSharedPointerResultDoesNotHaveSharedPointerType in r <==> !IsSharedPointer(result))
      && (MakeSharedPointerResultIsNotAStrongSharedPointer in r <==>
            IsSharedPointer(result) && !result.irType.value.strong)
      && !(MakeSharedPointerResultDoesNotHaveSharedPointerType in r &&
           MakeSharedPointerResultIsNotAStrongSharedPointer in r)
      && (MakeSharedPointerSizeDoesNotHaveI64Type in r <==> !HasType(size, I64Type))
      && (r == [] <==> result.irType.value.SharedPointer? && result.irType.value.strong && HasType(size, I64Type))
  {
  }

  /** The offset is always checked. Element types and strength are compared
      only when both operands are shared pointers; a weak-to-strong copy is
      reported exactly when the copy is strong and the copied pointer weak. */
  lemma CopySharedPointerOutcome(result: Value, copied: Value, offset: Value)
    ensures var r := CopySharedPointerIssues(result, copied, offset);
      var bothShared := IsSharedPointer(result) && IsSharedPointer(copied);
      && (CopySharedPointerOffsetDoesNotHaveI64Type in r <==> !HasType(offset, I64Type))
      && (CopySharedPointerResultAndCopiedHaveDifferentElementTypes in r <==>
            bothShared && result.irType.value.element != copied.irType.value.element)
      && (CopySharedPointerConvertsFromWeakToStrongSharedPointer in r <==>
            bothShared && result.irType.value.strong && !copied.irType.value.strong)
      && (!bothShared ==> |r| <= 3)
  {
  }

  /** Copying a shared pointer into one of the same element type and the same
      or weaker strength, with an I64 offset, raises nothing. */
  lemma CopySharedPointerAccepts(result: Value, copied: Value, offset: Value)
    requires IsSharedPointer(result) && IsSharedPointer(copied) && HasType(offset, I64Type)
    requires result.irType.value.element == copied.irType.value.element
    requires result.irType.value.strong ==> copied.irType.value.strong
    ensures CopySharedPointerIssues(result, copied, offset) == []
  {
  }

  /** Each string index check is reported exactly when its operand has the
      wrong type, and in the order result, string, index. */
  lemma StringIndexOutcome(result: Value, stringOperand: Value, indexOperand: Value)
    ensures var r := StringIndexIssues(result, stringOperand, indexOperand);
      && (StringIndexResultDoesNotHaveI8Type in r <==> !HasType(result, I8Type))
      && (StringIndexStringOperandDoesNotHaveStringType in r <==> !HasType(stringOperand, StringType))
      && (StringIndexIndexOperandDoesNotHaveI64Type in r <==> !HasType(indexOperand, I64Type))
      && (|r| == 3 ==> r == [StringIndexResultDoesNotHaveI8Type,
                             StringIndexStringOperandDoesNotHaveStringType,
                             StringIndexIndexOperandDoesNotHaveI64Type])
  {
  }

  /** The number of operands that are not strings, counted from the front.
      It is zero exactly when every operand is a string. */
  function NonStringOperands(operands: seq<Value>): (n: nat)
    ensures n <= |operands|
    ensures n == 0 <==> forall o :: o in operands ==> HasType(o, StringType)
  {
    if operands == [] then 0
    else (if HasType(operands[0], StringType) then 0 else 1) + NonStringOperands(operands[1..])
  }

  lemma NonStringOperandsAppend(operands: seq<Value>, last: Value)
    ensures NonStringOperands(operands + [last]) ==
      NonStringOperands(operands) + (if HasType(last, StringType) then 0 else 1)
  {
    if operands != [] {
      assert (operands + [last])[1..] == operands[1..] + [last];
      NonStringOperandsAppend(operands[1..], last);
    }
  }

  /** A string concatenation raises one operand issue per operand that is not
      a string, and only issues of that kind. */
  lemma {:induction false} ConcatOperandIssuesCount(operands: seq<Value>)
    ensures |ConcatOperandIssues(operands)| == NonStringOperands(operands)
    ensures forall k :: k in ConcatOperandIssues(operands) ==> k == StringConcatOperandDoesNotHaveStringType
  {
    if operands != [] {
      var init := operands[..|operands| - 1];
      ConcatOperandIssuesCount(init);
      assert operands == init + [operands[|operands| - 1]];
      NonStringOperandsAppend(init, operands[|operands| - 1]);
    }
  }

  /** A concatenation is accepted exactly when its result and every operand
      are strings and there is at least one operand. */
  lemma StringConcatAccepts(result: Value, operands: seq<Value>)
    ensures StringConcatIssues(result, operands) == [] <==>
      HasType(result, StringType) && operands != [] && forall o :: o in operands ==> HasType(o, StringType)
  {
    ConcatOperandIssuesCount(operands);
  }

  /** Storing the nil pointer through a smart pointer is always accepted,
      whatever the pointer's element type. */
  lemma StoreNilThroughSmartPointer(address: Value, base: BaseRules)
    requires IsSharedPointer(address) || IsUniquePointer(address)
    ensures StoreIssues(Store(Some(address), NilPointer), base) == []
  {
  }

  /** Loads and stores through a smart pointer are judged by the language rule
      alone: the base rules are not consulted, and the one possible issue is
      an element type mismatch. Any other address goes to the base rules. */
  lemma LoadStoreDelegation(instr: Instr, base1: BaseRules, base2: BaseRules)
    requires instr.Load? || instr.Store?
    ensures ThroughSmartPointer(instr.address) ==> InstrIssues(instr, base1) == InstrIssues(instr, base2)
    ensures ThroughSmartPointer(instr.address) && instr.Load? ==>
      && (InstrIssues(instr, base1) == [] || InstrIssues(instr, base1) == [LoadFromSmartPointerHasMismatchedElementType])
      && (InstrIssues(instr, base1) != [] <==> instr.result.irType != Some(instr.address.value.irType.value.element))
    ensures ThroughSmartPointer(instr.address) && instr.Store? ==>
      && (InstrIssues(instr, base1) == [] || InstrIssues(instr, base1) == [StoreToSmartPointerHasMismatchedElementType])
      && (InstrIssues(instr, base1) != [] <==>
            instr.stored != NilPointer && instr.stored.irType != Some(instr.address.value.irType.value.element))
    ensures !ThroughSmartPointer(instr.address) ==> InstrIssues(instr, base1) == base1(instr)
  {
  }

  /** Moving the nil pointer into a smart pointer skips the base rules, which
      would reject a pointer constant assigned to a value of another type;
      every other move is judged by the base rules alone. */
  lemma MovOfNil(instr: Instr, base: BaseRules)
    requires instr.Mov? && instr.result.irType.Some?
    ensures (IsSharedPointer(instr.result) || IsUniquePointer(instr.result)) && instr.origin == NilPointer ==>
      InstrIssues(instr, base) == []
    ensures !((IsSharedPointer(instr.result) || IsUniquePointer(instr.result)) && instr.origin == NilPointer) ==>
      InstrIssues(instr, base) == base(instr)
  {
  }

  /** The language's own instructions are judged by the language rules alone,
      and every issue they raise is a language issue, never a base one. */
  lemma LanguageInstrsIgnoreBase(instr: Instr, base1: BaseRules, base2: BaseRules)
    requires KindsReadable(instr)
    requires instr.LangPanic? || instr.MakeSharedPointer? || instr.CopySharedPointer? ||
             instr.DeleteSharedPointer? || instr.MakeUniquePointer? || instr.DeleteUniquePointer? ||
             instr.StringIndex? || instr.StringConcat?
    ensures InstrIssues(instr, base1) == InstrIssues(instr, base2)
    ensures forall k :: k in InstrIssues(instr, base1) ==> !k.BaseIssue?
  {
    match instr
    case StringConcat(result, operands) =>
      ConcatOperandIssuesCount(operands);
    case CopySharedPointer(result, copied, offset) =>
      CopySharedPointerOutcome(result, copied, offset);
    case _ =>
  }

  // ---------------------------------------------------------------------
  // The checker.

  class Checker {
    /** The base checker's rules. */
    const base: BaseRules
    /** The issue tracker's contents, oldest first. */
    var issues: seq<IssueKind>

    constructor (base: BaseRules)
      ensures this.base == base && issues == []
    {
      this.base := base;
      issues := [];
    }

    method AddIssue(kind: IssueKind)
      modifies this
      ensures issues == old(issues) + [kind]
    {
      issues := issues + [kind];
    }

    /** Hands an instruction to the base checker. */
    method CheckWithBaseRules(instr: Instr)
      modifies this
      ensures issues == old(issues) + base(instr)
    {
      issues := issues + base(instr);
    }

    method CheckInstr(instr: Instr)
      requires KindsReadable(instr)
      modifies this
      ensures issues == old(issues) + InstrIssues(instr, base)
    {
      match instr
      case LangPanic =>
      case MakeSharedPointer(result, size) => CheckMakeSharedPointerInstr(result, size);
      case CopySharedPointer(result, copied, offset) => CheckCopySharedPointerInstr(result, copied, offset);
      case DeleteSharedPointer(deleted) => CheckDeleteSharedPointerInstr(deleted);
      case MakeUniquePointer(result, size) => CheckMakeUniquePointerInstr(result, size);
      case DeleteUniquePointer(deleted) => CheckDeleteUniquePointerInstr(deleted);
      case StringIndex(result, s, i) => CheckStringIndexInstr(result, s, i);
      case StringConcat(result, operands) => CheckStringConcatInstr(result, operands);
      case Load(_, _) => CheckLoadInstr(instr);
      case Store(_, _) => CheckStoreInstr(instr);
      case Mov(_, _) => CheckMovInstr(instr);
      case OtherInstr(_) => CheckWithBaseRules(instr);
    }

    method CheckMakeSharedPointerInstr(result: Value, size: Value)
      requires result.irType.Some?
      modifies this
      ensures issues == old(issues) + MakeSharedPointerIssues(result, size)
    {
      if !result.irType.value.SharedPointer? {
        AddIssue(MakeSharedPointerResultDoesNotHaveSharedPointerType);
      } else if !result.irType.value.strong {
        AddIssue(MakeSharedPointerResultIsNotAStrongSharedPointer);
      }
      if size.irType != Some(I64Type) {
        AddIssue(MakeSharedPointerSizeDoesNotHaveI64Type);
      }
    }

    method CheckCopySharedPointerInstr(result: Value, copied: Value, offset: Value)
      requires result.irType.Some? && copied.irType.Some?
      modifies this
      ensures issues == old(issues) + CopySharedPointerIssues(result, copied, offset)
    {
      var pointersHaveIssues := CheckCopyOperands(result, copied, offset);
      if pointersHaveIssues {
        assert issues == old(issues) + CopyOperandIssues(result, copied, offset) + [];
        return;
      }
      CheckCopyPointerPair(result.irType.value, copied.irType.value);
    }

    /** The first half of `CheckCopySharedPointerInstr`: reports whether
        either pointer operand lacks a shared pointer type. */
    method CheckCopyOperands(result: Value, copied: Value, offset: Value) returns (pointersHaveIssues: bool)
      requires result.irType.Some? && copied.irType.Some?
      modifies this
      ensures issues == old(issues) + CopyOperandIssues(result, copied, offset)
      ensures pointersHaveIssues <==> !(IsSharedPointer(result) && IsSharedPointer(copied))
    {
      ghost var before := issues;
      pointersHaveIssues := false;
      if !result.irType.value.SharedPointer? {
        AddIssue(CopySharedPointerResultDoesNotHaveSharedPointerType);
        pointersHaveIssues := true;
      }
      ghost var first := Flag(!IsSharedPointer(result), CopySharedPointerResultDoesNotHaveSharedPointerType);
      assert issues == before + first;
      if !copied.irType.value.SharedPointer? {
        AddIssue(CopySharedPointerCopiedDoesNotHaveSharedPointerType);
        pointersHaveIssues := true;
      }
      ghost var second := first + Flag(!IsSharedPointer(copied), CopySharedPointerCopiedDoesNotHaveSharedPointerType);
      assert issues == before + second;
      if offset.irType != Some(I64Type) {
        AddIssue(CopySharedPointerOffsetDoesNotHaveI64Type);
      }
    }

    /** The second half of `CheckCopySharedPointerInstr`, reached only when
        both operands are shared pointers. */
    method CheckCopyPointerPair(copy: IrType, copiedType: IrType)
      requires copy.SharedPointer? && copiedType.SharedPointer?
      modifies this
      ensures issues == old(issues) + CopyPointerPairIssues(copy, copiedType)
    {
      if copy.element != copiedType.element {
        AddIssue(CopySharedPointerResultAndCopiedHaveDifferentElementTypes);
      }
      if copy.strong && !copiedType.strong {
        AddIssue(CopySharedPointerConvertsFromWeakToStrongSharedPointer);
      }
    }

    method CheckDeleteSharedPointerInstr(deleted: Value)
      requires deleted.irType.Some?
      modifies this
      ensures issues == old(issues) + Flag(!IsSharedPointer(deleted), DeleteSharedPointerArgumentDoesNotHaveSharedPointerType)
    {
      if !deleted.irType.value.SharedPointer? {
        AddIssue(DeleteSharedPointerArgumentDoesNotHaveSharedPointerType);
      }
    }

    method CheckMakeUniquePointerInstr(result: Value, size: Value)
      requires result.irType.Some?
      modifies this
      ensures issues == old(issues)
        + Flag(!IsUniquePointer(result), MakeUniquePointerResultDoesNotHaveUniquePointerType)
        + Flag(!HasType(size, I64Type), MakeUniquePointerSizeDoesNotHaveI64Type)
    {
      if !result.irType.value.UniquePointer? {
        AddIssue(MakeUniquePointerResultDoesNotHaveUniquePointerType);
      }
      if size.irType != Some(I64Type) {
        AddIssue(MakeUniquePointerSizeDoesNotHaveI64Type);
      }
    }

    method CheckDeleteUniquePointerInstr(deleted: Value)
      requires deleted.irType.Some?
      modifies this
      ensures issues == old(issues) + Flag(!IsUniquePointer(deleted), DeleteUniquePointerArgumentDoesNotHaveUniquePointerType)
    {
      if !deleted.irType.value.UniquePointer? {
        AddIssue(DeleteUniquePointerArgumentDoesNotHaveUniquePointerType);
      }
    }

    method CheckLoadInstr(instr: Instr)
      requires instr.Load?
      modifies this
      ensures issues == old(issues) + LoadIssues(instr, base)
    {
      var address := instr.address;
      if address.None? || address.value.irType.None? ||
         (!address.value.irType.value.SharedPointer? && !address.value.irType.value.UniquePointer?) {
        CheckWithBaseRules(instr);
        return;
      }
      var smartPointer := address.value.irType.value;
      if instr.result.irType != Some(smartPointer.element) {
        AddIssue(LoadFromSmartPointerHasMismatchedElementType);
      }
    }

    method CheckStoreInstr(instr: Instr)
      requires instr.Store?
      modifies this
      ensures issues == old(issues) + StoreIssues(instr, base)
    {
      var address := instr.address;
      if address.None? || address.value.irType.None? ||
         (!address.value.irType.value.SharedPointer? && !address.value.irType.value.UniquePointer?) {
        CheckWithBaseRules(instr);
        return;
      }
      var smartPointer := address.value.irType.value;
      if instr.stored == NilPointer {
        return;
      } else if instr.stored.irType != Some(smartPointer.element) {
        AddIssue(StoreToSmartPointerHasMismatchedElementType);
      }
    }

    method CheckMovInstr(instr: Instr)
      requires instr.Mov? && instr.result.irType.Some?
      modifies this
      ensures issues == old(issues) + MovIssues(instr, base)
    {
      var resultType := instr.result.irType.value;
      if (resultType.SharedPointer? || resultType.UniquePointer?) && instr.origin == NilPointer {
        return;
      } else {
        CheckWithBaseRules(instr);
      }
    }

    method CheckStringIndexInstr(result: Value, stringOperand: Value, indexOperand: Value)
      modifies this
      ensures issues == old(issues) + StringIndexIssues(result, stringOperand, indexOperand)
    {
      ghost var before := issues;
      if result.irType != Some(I8Type) {
        AddIssue(StringIndexResultDoesNotHaveI8Type);
      }
      ghost var first := Flag(!HasType(result, I8Type), StringIndexResultDoesNotHaveI8Type);
      assert issues == before + first;
      if stringOperand.irType != Some(StringType) {
        AddIssue(StringIndexStringOperandDoesNotHaveStringType);
      }
      ghost var second := first + Flag(!HasType(stringOperand, StringType), StringIndexStringOperandDoesNotHaveStringType);
      assert issues == before + second;
      if indexOperand.irType != Some(I64Type) {
        AddIssue(StringIndexIndexOperandDoesNotHaveI64Type);
      }
    }

    method CheckStringConcatInstr(result: Value, operands: seq<Value>)
      modifies this
      ensures issues == old(issues) + StringConcatIssues(result, operands)
    {
      if result.irType != Some(StringType) {
        AddIssue(StringConcatResultDoesNotHaveStringType);
      }
      if operands == [] {
        AddIssue(StringConcatDoesNotHaveArguments);
      }
      ghost var before := issues;
      var i := 0;
      while i < |operands|
        invariant 0 <= i <= |operands|
        invariant issues == before + ConcatOperandIssues(operands[..i])
      {
        assert operands[..i + 1][..i] == operands[..i];
        if operands[i].irType != Some(StringType) {
          AddIssue(StringConcatOperandDoesNotHaveStringType);
        }
        i := i + 1;
      }
      assert operands[..i] == operands;
    }
  }
}
