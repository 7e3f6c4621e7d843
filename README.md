# Katara back end and IR tooling, modelled in Dafny

This project models six pieces of the Katara compiler. For each it proves
the properties the code promises.

- **Register allocation** (`register_allocator.dfy`, module `RegisterAllocator`).
  - Interference-graph colours map to x86-64 registers and rbp-relative spill
    slots, and `OperandToColor` maps back.
  - The calling-convention hints: rdi, rsi, rdx, rcx, r8, r9 for arguments and
    rax for the result. These are handed to the graph colourer.
- **Move generation** (`mov_generator.dfy`, module `MovGenerator`).
  - A move is elided when both operands are equal.
  - A move is emitted directly when x86-64 can encode it.
  - Otherwise it goes through a scratch register: a 64-bit immediate source, or
    memory to memory.
- **Linker** (`linker.dfy`, module `Linker`).
  - Function and block address tables, and the patches recorded while encoding.
  - `ApplyPatches` resolves every patch or names an id that some patch refers to and that was never registered.
- **Function value index** (`func_values.dfy`, module `FuncValues`).
  - Which values exist, by type and by type kind.
  - Which instruction defines each value and which instructions use it.
- **Language IR checker** (`ir_checker.dfy`, module `IrChecker`).
  - The issues raised for shared and unique pointer instructions and for string
    instructions.
  - The language's refinements of the base checker's load, store and mov rules.
  - Each check is a specification function giving the exact issue list. The
    class `Checker` appends to its issue tracker exactly that list.
- **Language IR type parser**.
  - `type_grammar.dfy`, module `TypeGrammar`: the grammar as functions over a
    token sequence and a parse state. The state is the cursor, the recorded
    scanner errors, and the program's type table.
  - `type_parser.dfy`, module `TypeParser`: the parser object as it runs. It
    moves a cursor, fills struct and interface builders, and appends to the
    type table. Every method is proved to agree with the grammar function of
    the same name.
  - `type_grammar_rules.dfy`, module `TypeGrammarRules`: the individual rules,
    plus the finding below.
  - `type_grammar_properties.dfy`, module `TypeGrammarProperties`: the round
    trip. Every well-formed type, serialized, parses back to the reference and
    table entries `Build` describes.
  - `type_table_decode.dfy`, module `TypeTableDecode`: reading those entries
    back out of the table gives the original type.

`wrappers.dfy` holds `Option` and `Result`; `Failure` stands for the C++
`throw`s and for `fail(...)`. `x86.dfy` holds the operand and instruction
vocabulary. `token_match.dfy` holds facts about a token sequence laid out at a
position.

Where the shown source leaves the behaviour open, the model chooses:
- Result hints are set after argument hints, and setting a hint replaces an
  earlier one for the same value. So a value that is both an argument and the
  returned value is hinted to rax, and of two equal arguments the later one's
  register wins (see `RegisterAllocator.PreferredColorsPlacement` under
  "## Left out").

As the code does, `OperandToColor` does not look at a memory operand's base
register.

## Model

| member | source | states |
|---|---|---|
| RegisterAllocator.Int32 | src/x86_64/ir_translator/register_allocator.cc:28 | The `int32_t` conversion yields a 32-bit value congruent to its input modulo 2^32, and is the identity on values already in range. |
| RegisterAllocator.TruncDivByMinus8 | src/x86_64/ir_translator/register_allocator.cc:43-44 | C's truncating `disp / -8` on a 32-bit displacement is exact on multiples of 8 and bounded by 2^28. |
| RegisterAllocator.ColorAndSizeToOperand | src/x86_64/ir_translator/register_allocator.cc:20-30 | The result is a register exactly for colours 0..13, never rsp or rbp; otherwise it is an rbp-based slot at a multiple of 8, at `-8 * (color - 14)` when that fits in 32 bits; the size is kept. |
| RegisterAllocator.OperandToColor | src/x86_64/ir_translator/register_allocator.cc:32-48 | Fails exactly on rsp, rbp, register numbers outside 0..15, and operands that are neither register nor memory; registers map to colours 0..13. |
| RegisterAllocator.RegisterColorsRoundTrip | src/x86_64/ir_translator/register_allocator.cc:20-38 | Every register colour survives colour → operand → colour. |
| RegisterAllocator.SpillColorsRoundTrip | src/x86_64/ir_translator/register_allocator.cc:26-28 | Every spill colour whose displacement fits in 32 bits survives the round trip. |
| RegisterAllocator.ColorRoundTrip | src/x86_64/ir_translator/register_allocator.cc:20-48 | colour → operand → colour is the identity for every colour whose displacement fits, at every size. |
| RegisterAllocator.ColorRoundTripOnlyWhenDispFits | src/x86_64/ir_translator/register_allocator.cc:26-28 | The round trip holds if and only if the displacement fits; beyond that the `int32_t` conversion wraps. |
| RegisterAllocator.RegisterOperandsRoundTrip | src/x86_64/ir_translator/register_allocator.cc:32-41 | Every register `OperandToColor` accepts is rebuilt exactly by `ColorAndSizeToOperand`. |
| RegisterAllocator.SpillOperandsRoundTrip | src/x86_64/ir_translator/register_allocator.cc:42-44 | Every rbp slot at a 32-bit multiple of 8 outside 8..112 is rebuilt exactly from its colour: slots at or below rbp from colours 14 and up, slots 120 or more above rbp from negative colours. |
| RegisterAllocator.SlotsAboveRbpDecodeToRegisters | src/x86_64/ir_translator/register_allocator.cc:42-44 | A memory operand 8..112 above its base decodes to the colour `14 - disp / 8`, one of the register colours 0..13, so it is not rebuilt as a slot. |
| RegisterAllocator.ArgumentRegister | src/x86_64/ir_translator/register_allocator.cc:56-73 | Succeeds exactly for argument indices 0..5, with a 64-bit register; a seventh argument is an error. |
| RegisterAllocator.ResultRegister | src/x86_64/ir_translator/register_allocator.cc:88-95 | Succeeds exactly for result index 0 (rax); any other index is an error. |
| RegisterAllocator.ArgumentRegisterColors | src/x86_64/ir_translator/register_allocator.cc:56-74 | The colours of rdi, rsi, rdx, rcx, r8, r9 are 5, 4, 2, 1, 6, 7. |
| RegisterAllocator.AddPreferredColorsForFuncArgs | src/x86_64/ir_translator/register_allocator.cc:52-76 | The loop computes exactly `ArgHints`: the argument hints, or the too-many-arguments error. |
| RegisterAllocator.AddPreferredColorsForFuncResults | src/x86_64/ir_translator/register_allocator.cc:78-98 | The loop computes exactly `ResultHints`, skipping constants and failing on a computed operand after the first. |
| RegisterAllocator.AllocateRegistersInFunc | src/x86_64/ir_translator/register_allocator.cc:102-119 | Fails with the hints' error, or hands the unchanged graph and exactly `PreferredColors(func)` to the colourer. |
| RegisterAllocator.ArgHintsPlacement | src/x86_64/ir_translator/register_allocator.cc:54-75 | Argument i is hinted to the colour of argument register i, unless the same value occurs later; the hinted keys are the old keys plus the arguments; nothing else changes. |
| RegisterAllocator.ArgHintsFailure | src/x86_64/ir_translator/register_allocator.cc:70-71 | Argument hints fail if and only if there are more than six arguments, with that error. |
| RegisterAllocator.ResultHintsOutcome | src/x86_64/ir_translator/register_allocator.cc:80-97 | A return fails if and only if it has a computed operand after position 0; otherwise only a computed operand at position 0 is hinted, to rax. |
| RegisterAllocator.ReturnOperandListsMembers | src/x86_64/ir_translator/register_allocator.cc:108-115 | An operand list is visited if and only if some block ends in a return with those operands. |
| RegisterAllocator.AllResultHintsOutcome | src/x86_64/ir_translator/register_allocator.cc:108-116 | Over all returns: success exactly when every return is well-shaped; returned values are hinted to rax; everything else keeps its hint. |
| RegisterAllocator.ReturnedValuesMembers | src/x86_64/ir_translator/register_allocator.cc:82-84 | A value is hinted to rax if and only if it is the first operand of some return. |
| RegisterAllocator.PreferredColorsFailure | src/x86_64/ir_translator/register_allocator.cc:102-116 | Allocation fails if and only if there are more than six arguments or some return has a computed operand after the first. |
| RegisterAllocator.PreferredColorsPlacement | src/x86_64/ir_translator/register_allocator.cc:104-116 | On success, the hints cover exactly the arguments and returned values; returned values get rax, even when they are also arguments; other arguments get their register's colour. |
| RegisterAllocator.AllResultHintsFailsAt | src/x86_64/ir_translator/register_allocator.cc:108-116 | Once a block's return fails, the whole function's hints fail with the same error. |
| MovGenerator.X86Block.AddInstr | src/x86_64/ir_translator/mov_generator.cc:31 | Appends exactly one instruction to the block. |
| MovGenerator.OwnMov | src/x86_64/ir_translator/mov_generator.cc:26-35 | The emitted `Mov` writes the result and reads either the origin or the scratch register. |
| MovGenerator.GenerateMov | src/x86_64/ir_translator/mov_generator.cc:20-37 | For a register or memory result (`x86_64::RM`), the block gains exactly `MovInstrs`: nothing when the operands are equal, else the scratch register's acquire code, the `Mov` and its restore code, or the direct `Mov`. |
| MovGenerator.ElidedIffEqual | src/x86_64/ir_translator/mov_generator.cc:22-24 | A move emits nothing if and only if its operands are equal. |
| MovGenerator.DirectMov | src/x86_64/ir_translator/mov_generator.cc:34-35 | An encodable move is exactly one `Mov(result, origin)`. |
| MovGenerator.MovThroughTemporary | src/x86_64/ir_translator/mov_generator.cc:26-33 | A 64-bit immediate or a memory-to-memory move goes through the scratch register, even into a register. |
| MovGenerator.OwnMovEncodable | src/x86_64/ir_translator/mov_generator.cc:26-35 | The emitted `Mov` is never memory to memory and never from a 64-bit immediate. |
| MovGenerator.TemporaryIsNotResult | src/x86_64/ir_translator/mov_generator.cc:28-31 | With `can_be_result_reg` false, the scratch register read is never the register written. This carries the provider's stated guarantee through `OwnMov`; it is not proved about any provider. |
| Linker.Linker.constructor | src/x86_64/mc/linker.h:24 | A new linker has empty address tables and no patches. |
| Linker.Linker.AddFuncAddr | src/x86_64/mc/linker.h:27 | Records one function address; the other three tables are unchanged. |
| Linker.Linker.AddBlockAddr | src/x86_64/mc/linker.h:28 | Records one block address; the other three tables are unchanged. |
| Linker.Linker.AddFuncRef | src/x86_64/mc/linker.h:30 | Appends one function patch; the other three tables are unchanged. |
| Linker.Linker.AddBlockRef | src/x86_64/mc/linker.h:31 | Appends one block patch; the other three tables are unchanged. |
| Linker.Linker.ApplyPatches | src/x86_64/mc/linker.h:33-49 | Succeeds if and only if every patch's target is registered, pairing each patch, in order, with its target's address; otherwise it names an unresolved id that some patch refers to. |
| Linker.LinkTestProgram | src/tests.cc:161-247 | In the x86-64 test program every call site resolves to its callee (AddInts or PrintInt) and the loop jump to the loop block. |
| FuncValues.FuncValues.GetValuesWithType | src/ir/info/func_values.cc:15-21 | The values of a type are known values and have that type's kind; an unused type gives the empty set. |
| FuncValues.FuncValues.GetValuesWithTypeKind | src/ir/info/func_values.cc:23-30 | The values of a kind are known values; an unused kind gives the empty set. |
| FuncValues.FuncValues.GetInstrDefiningValue | src/ir/info/func_values.cc:32-34 | Succeeds if and only if a definer is recorded; otherwise an out-of-range error for that value. |
| FuncValues.FuncValues.GetInstrsUsingValue | src/ir/info/func_values.cc:36-38 | Succeeds if and only if users are recorded; otherwise an out-of-range error for that value. |
| FuncValues.FuncValues.AddValue | src/ir/info/func_values.cc:40-44 | Adds the value to the value set, its type's set and its kind's set, keeps the index consistent, and leaves definers and users unchanged. |
| FuncValues.FuncValues.SetInstrDefiningValue | src/ir/info/func_values.cc:46-48 | Records the definer only when none is recorded yet; nothing else changes. |
| FuncValues.FuncValues.AddInstrUsingValue | src/ir/info/func_values.cc:50-52 | Adds one user to the value's set, creating it if needed; adding a known user changes nothing. |
| FuncValues.AddedValueHasNoUsers | src/ir/info/func_values.cc:36-44 | A value that was only added has no users: the lookup fails. |
| FuncValues.FirstDefinerStays | src/ir/info/func_values.cc:32-48 | After two definers are recorded, the first is returned. |
| FuncValues.RepeatedUserCountsOnce | src/ir/info/func_values.cc:36-52 | A user recorded twice is listed once. |
| IrChecker.MakeSharedPointerOutcome | src/lang/processors/ir/check/checker.cc:50-68 | Each make-shared issue is raised exactly when its condition holds; "not a shared pointer" and "not strong" never come together; no issues exactly for a strong shared pointer with an I64 size. |
| IrChecker.CopySharedPointerOutcome | src/lang/processors/ir/check/checker.cc:70-111 | The offset is always checked; element types and strength are compared exactly when both operands are shared pointers; weak-to-strong is flagged exactly for a strong copy of a weak pointer. |
| IrChecker.CopySharedPointerAccepts | src/lang/processors/ir/check/checker.cc:70-111 | A copy between shared pointers of the same element type, never weak to strong, with an I64 offset, raises nothing. |
| IrChecker.StringIndexOutcome | src/lang/processors/ir/check/checker.cc:194-211 | Each operand is flagged exactly when it has the wrong type, in the order result, string, index. |
| IrChecker.NonStringOperands | src/lang/processors/ir/check/checker.cc:224-232 | The count of non-string operands is at most the number of operands, and is zero if and only if every operand has the string type. |
| IrChecker.ConcatOperandIssuesCount | src/lang/processors/ir/check/checker.cc:224-232 | A concatenation raises one operand issue per non-string operand, and issues of that kind only. |
| IrChecker.StringConcatAccepts | src/lang/processors/ir/check/checker.cc:213-233 | A concatenation is accepted if and only if its result is a string, there is at least one operand, and every operand has the string type. |
| IrChecker.StoreNilThroughSmartPointer | src/lang/processors/ir/check/checker.cc:167-182 | Storing nil through a shared or unique pointer is always accepted. |
| IrChecker.LoadStoreDelegation | src/lang/processors/ir/check/checker.cc:152-182 | Through a smart pointer, loads and stores ignore the base rules and can raise only the element-mismatch issue: a load raises it exactly when the result's type is not the pointer's element type, a store exactly when a non-nil stored value's type is not; any other address goes to the base rules unchanged. |
| IrChecker.MovOfNil | src/lang/processors/ir/check/checker.cc:184-192 | Moving nil into a smart pointer raises nothing; every other move is judged by the base rules alone. |
| IrChecker.LanguageInstrsIgnoreBase | src/lang/processors/ir/check/checker.cc:19-44 | The language's own instructions never consult the base rules and never raise a base issue. |
| IrChecker.Checker.constructor | src/lang/processors/ir/check/checker.cc:19 | A new checker has an empty issue list and the given base rules. |
| IrChecker.Checker.AddIssue | src/lang/processors/ir/check/checker.cc:75 | Appends exactly one issue. |
| IrChecker.Checker.CheckWithBaseRules | src/lang/processors/ir/check/checker.cc:45-46 | Appends exactly the base rules' issues. |
| IrChecker.Checker.CheckInstr | src/lang/processors/ir/check/checker.cc:19-48 | Appends exactly `InstrIssues`: the right check for each instruction kind, and the base rules for the rest. |
| IrChecker.Checker.CheckMakeSharedPointerInstr | src/lang/processors/ir/check/checker.cc:50-68 | Appends exactly `MakeSharedPointerIssues`. |
| IrChecker.Checker.CheckCopySharedPointerInstr | src/lang/processors/ir/check/checker.cc:70-111 | Appends exactly `CopySharedPointerIssues`. |
| IrChecker.Checker.CheckCopyOperands | src/lang/processors/ir/check/checker.cc:72-94 | Appends the three operand checks, and reports that the pointers have issues if and only if either operand is not a shared pointer. |
| IrChecker.Checker.CheckCopyPointerPair | src/lang/processors/ir/check/checker.cc:95-110 | Appends the element-type and strength comparisons. |
| IrChecker.Checker.CheckDeleteSharedPointerInstr | src/lang/processors/ir/check/checker.cc:113-123 | Appends one issue exactly when the operand is not a shared pointer. |
| IrChecker.Checker.CheckMakeUniquePointerInstr | src/lang/processors/ir/check/checker.cc:125-138 | Appends the result-type issue, then the size issue, each exactly when it applies. |
| IrChecker.Checker.CheckDeleteUniquePointerInstr | src/lang/processors/ir/check/checker.cc:140-150 | Appends one issue exactly when the operand is not a unique pointer. |
| IrChecker.Checker.CheckLoadInstr | src/lang/processors/ir/check/checker.cc:152-165 | Appends exactly `LoadIssues`. |
| IrChecker.Checker.CheckStoreInstr | src/lang/processors/ir/check/checker.cc:167-182 | Appends exactly `StoreIssues`. |
| IrChecker.Checker.CheckMovInstr | src/lang/processors/ir/check/checker.cc:184-192 | Appends exactly `MovIssues`. |
| IrChecker.Checker.CheckStringIndexInstr | src/lang/processors/ir/check/checker.cc:194-211 | Appends exactly `StringIndexIssues`. |
| IrChecker.Checker.CheckStringConcatInstr | src/lang/processors/ir/check/checker.cc:213-233 | Appends exactly `StringConcatIssues`. |
| TypeGrammar.ConsumeIdentifier | src/lang/processors/ir/serialization/type_parser.cc:41 | Consumes an identifier if and only if one is under the cursor; otherwise records an error and does not move. |
| TypeGrammar.ConsumeToken | src/lang/processors/ir/serialization/type_parser.cc:44 | Steps over the expected punctuation, or records an error and does not move. |
| TypeGrammar.ConsumeInt64 | src/lang/processors/ir/serialization/type_parser.cc:84 | Consumes an integer literal if and only if one is under the cursor. |
| TypeGrammar.SkipPastComma | src/lang/processors/ir/serialization/type_parser.cc:117 | Moves just past the next comma, or to the end, without crossing another comma, and records nothing. |
| TypeGrammar.ParseBaseType | src/lang/processors/ir/serialization/type_parser.cc:37 | Succeeds exactly on a base type name, consuming it. |
| TypeGrammar.ParseType | src/lang/processors/ir/serialization/type_parser.cc:18-38 | A successful parse moves the cursor forward and only appends to errors and table. |
| TypeGrammar.ParseSharedPointer | src/lang/processors/ir/serialization/type_parser.cc:40-59 | A successful parse appends a shared pointer to the table and refers to it. |
| TypeGrammar.ParseUniquePointer | src/lang/processors/ir/serialization/type_parser.cc:61-73 | A successful parse appends a unique pointer to the table and refers to it. |
| TypeGrammar.ParseArray | src/lang/processors/ir/serialization/type_parser.cc:75-91 | A successful parse appends an array to the table and refers to it. |
| TypeGrammar.ParseStruct | src/lang/processors/ir/serialization/type_parser.cc:93-112 | A successful parse yields the empty-struct singleton with the table unchanged, or appends a struct and refers to it. |
| TypeGrammar.StructFieldsLoop | src/lang/processors/ir/serialization/type_parser.cc:103-106 | The field loop only adds fields and stops at a token that is not a comma. |
| TypeGrammar.ParseStructField | src/lang/processors/ir/serialization/type_parser.cc:114-124 | Adds at most one field, and none only when no identifier starts the entry. |
| TypeGrammar.ParseInterface | src/lang/processors/ir/serialization/type_parser.cc:126-145 | A successful parse yields the empty-interface singleton with the table unchanged, or appends an interface and refers to it. |
| TypeGrammar.InterfaceMethodsLoop | src/lang/processors/ir/serialization/type_parser.cc:136-139 | The method loop only adds methods and stops at a token that is not a comma. |
| TypeGrammar.ParseTypesUnlessClosed | src/lang/processors/ir/serialization/type_parser.cc:156-166 | A parameter or result list only moves forward. |
| TypeGrammar.ParseInterfaceMethod | src/lang/processors/ir/serialization/type_parser.cc:147-169 | Adds at most one method, and none only when no identifier starts the entry. |
| TypeGrammar.ParseTypes | src/lang/processors/ir/serialization/type_parser.cc:158 | A type list holds at least one type. |
| TypeGrammar.TypesLoop | src/lang/processors/ir/serialization/type_parser.cc:158 | The type loop only adds types and stops at a token that is not a comma. |
| TypeParser.StructBuilder.AddField | src/lang/processors/ir/serialization/type_parser.cc:123 | Appends exactly one field. |
| TypeParser.InterfaceBuilder.AddMethod | src/lang/processors/ir/serialization/type_parser.cc:168 | Appends exactly one method. |
| TypeParser.TypeParser.ParseBaseType | src/lang/processors/ir/serialization/type_parser.cc:37 | Returns and leaves the state exactly as `TypeGrammar.ParseBaseType` says. |
| TypeParser.TypeParser.AddType | src/lang/processors/ir/serialization/type_parser.cc:55-58 | Appends the entry to the table and returns a reference to it. |
| TypeParser.TypeParser.ParseType | src/lang/processors/ir/serialization/type_parser.cc:18-38 | Agrees with `TypeGrammar.ParseType` in result and final state. |
| TypeParser.TypeParser.ParseSharedPointer | src/lang/processors/ir/serialization/type_parser.cc:40-59 | Agrees with `TypeGrammar.ParseSharedPointer`. |
| TypeParser.TypeParser.ParseUniquePointer | src/lang/processors/ir/serialization/type_parser.cc:61-73 | Agrees with `TypeGrammar.ParseUniquePointer`. |
| TypeParser.TypeParser.ParseArray | src/lang/processors/ir/serialization/type_parser.cc:75-91 | Agrees with `TypeGrammar.ParseArray`. |
| TypeParser.TypeParser.ParseStruct | src/lang/processors/ir/serialization/type_parser.cc:93-112 | Agrees with `TypeGrammar.ParseStruct`; the builder loop gathers exactly the grammar's fields. |
| TypeParser.TypeParser.ParseStructField | src/lang/processors/ir/serialization/type_parser.cc:114-124 | Agrees with `TypeGrammar.ParseStructField`, appending its field, if any, to the builder. |
| TypeParser.TypeParser.ParseInterface | src/lang/processors/ir/serialization/type_parser.cc:126-145 | Agrees with `TypeGrammar.ParseInterface`. |
| TypeParser.TypeParser.ParseInterfaceMethod | src/lang/processors/ir/serialization/type_parser.cc:147-169 | Agrees with `TypeGrammar.ParseInterfaceMethod`, appending its method, if any, to the builder. |
| TypeParser.TypeParser.ParseTypes | src/lang/processors/ir/serialization/type_parser.cc:158 | Agrees with `TypeGrammar.ParseTypes`. |
| TypeGrammarRules.NonKeywordGoesToBase | src/lang/processors/ir/serialization/type_parser.cc:19-37 | Anything but a language keyword goes to the base parser. |
| TypeGrammarRules.UnknownTypeFails | src/lang/processors/ir/serialization/type_parser.cc:37 | An unknown name, or a token that is not an identifier, aborts with an unknown-type error at the cursor. |
| TypeGrammarRules.SingletonKeywords | src/lang/processors/ir/serialization/type_parser.cc:25-26 | `lstr` and `ltypeid` give their singletons, one token long, with the table unchanged (corrected behaviour, see Findings). |
| TypeGrammarRules.SharedPointerWithStrength | src/lang/processors/ir/serialization/type_parser.cc:40-59 | `, s >` makes a strong pointer and `, w >` a weak one, appended to the table after the element's entries. |
| TypeGrammarRules.SharedPointerUnknownStrength | src/lang/processors/ir/serialization/type_parser.cc:48-51 | Any other strength letter aborts the parse. |
| TypeGrammarRules.SharedPointerMissingStrength | src/lang/processors/ir/serialization/type_parser.cc:48-52 | A missing strength records an error and defaults to strong. |
| TypeGrammarRules.UniquePointerRule | src/lang/processors/ir/serialization/type_parser.cc:61-73 | `lunique_ptr<T>` appends a unique pointer to `T`. |
| TypeGrammarRules.ArrayWithoutCount | src/lang/processors/ir/serialization/type_parser.cc:75-91 | `larray<T>` appends an array without a fixed count. |
| TypeGrammarRules.ArrayWithCount | src/lang/processors/ir/serialization/type_parser.cc:82-85 | `larray<T, n>` appends an array of fixed count n. |
| TypeGrammarRules.ArrayMissingCount | src/lang/processors/ir/serialization/type_parser.cc:84 | A missing count records an error and gives count 0. |
| TypeGrammarRules.StructWithoutMembers | src/lang/processors/ir/serialization/type_parser.cc:97-99 | `lstruct` without `<` is the empty-struct singleton, one token, table unchanged. |
| TypeGrammarRules.InterfaceWithoutMembers | src/lang/processors/ir/serialization/type_parser.cc:130-132 | `linterface` without `<` is the empty-interface singleton. |
| TypeGrammarRules.MalformedFieldSkipped | src/lang/processors/ir/serialization/type_parser.cc:115-118 | A field without a name adds nothing, records one error and skips through the next comma. |
| TypeGrammarRules.MalformedMethodSkipped | src/lang/processors/ir/serialization/type_parser.cc:148-151 | A method without a name adds nothing, records one error and skips through the next comma. |
| TypeGrammarRules.NamedFieldAdded | src/lang/processors/ir/serialization/type_parser.cc:120-123 | A field that starts with a name adds exactly one field of that name. |
| TypeGrammarRules.ParseTypeAsWritten | src/lang/processors/ir/serialization/type_parser.cc:18-38 | The dispatch as written, which leaves `lstr` and `ltypeid` unconsumed; it never moves backward. |
| TypeGrammarRules.SingletonNotConsumedAsWritten | src/lang/processors/ir/serialization/type_parser.cc:25-26 | As written, `lstr` and `ltypeid` leave the cursor on the keyword, unlike the corrected parse. |
| TypeGrammarRules.AsWrittenDiffersOnlyOnSingletons | src/lang/processors/ir/serialization/type_parser.cc:18-38 | On every other input the as-written and corrected dispatches agree. |
| TypeGrammarProperties.ParseRendered | src/lang/processors/ir/serialization/type_parser.cc:18-169 | Every well-formed type, serialized, parses back to the reference and table `Build` describes, with the cursor just past it and no errors. |
| TypeGrammarProperties.ParseRenderedTo | src/lang/processors/ir/serialization/type_parser.cc:18-38 | The same round trip, by induction on the type. |
| TypeGrammarProperties.ParseRenderedSharedPointer | src/lang/processors/ir/serialization/type_parser.cc:40-59 | A serialized shared pointer parses back to its entry. |
| TypeGrammarProperties.ParseRenderedUniquePointer | src/lang/processors/ir/serialization/type_parser.cc:61-73 | A serialized unique pointer parses back to its entry. |
| TypeGrammarProperties.ParseRenderedArray | src/lang/processors/ir/serialization/type_parser.cc:75-91 | A serialized array, with or without a count, parses back to its entry. |
| TypeGrammarProperties.ParseRenderedCountedArray | src/lang/processors/ir/serialization/type_parser.cc:82-86 | A serialized fixed-count array parses back to its entry. |
| TypeGrammarProperties.ParseRenderedOpenArray | src/lang/processors/ir/serialization/type_parser.cc:80-86 | A serialized array without a count parses back to its entry. |
| TypeGrammarProperties.ParseRenderedStruct | src/lang/processors/ir/serialization/type_parser.cc:93-112 | A serialized struct parses back to its fields, or to the empty-struct singleton. |
| TypeGrammarProperties.ParseRenderedField | src/lang/processors/ir/serialization/type_parser.cc:114-124 | A serialized field parses back to exactly that field. |
| TypeGrammarProperties.ParseRenderedFieldsTail | src/lang/processors/ir/serialization/type_parser.cc:103-106 | The field loop reads back every further field, in order, up to `>`. |
| TypeGrammarProperties.ParseRenderedInterface | src/lang/processors/ir/serialization/type_parser.cc:126-145 | A serialized interface parses back to its methods, or to the empty-interface singleton. |
| TypeGrammarProperties.ParseRenderedMethod | src/lang/processors/ir/serialization/type_parser.cc:147-169 | A serialized method parses back to its name, parameters and results. |
| TypeGrammarProperties.ParseMethodAt | src/lang/processors/ir/serialization/type_parser.cc:153-168 | Walking `name : ( parameters ) => ( results )` yields the built method. |
| TypeGrammarProperties.ParseRenderedTypeList | src/lang/processors/ir/serialization/type_parser.cc:157-166 | A parameter or result list, possibly empty, parses back to its types. |
| TypeGrammarProperties.ParseRenderedTypes | src/lang/processors/ir/serialization/type_parser.cc:158 | A non-empty type list parses back to its types. |
| TypeGrammarProperties.ParseRenderedTypesTail | src/lang/processors/ir/serialization/type_parser.cc:158 | The type loop reads back every further type, in order. |
| TypeGrammarProperties.ParseRenderedMethodsTail | src/lang/processors/ir/serialization/type_parser.cc:136-139 | The method loop reads back every further method, in order, up to `>`. |
| TypeTableDecode.DecodeRefStable | src/lang/processors/ir/serialization/type_parser.cc:57 | Appending to the table does not change what an existing reference means. |
| TypeTableDecode.BuildDecodes | src/lang/processors/ir/serialization/type_parser.cc:55-58 | Building a type only appends to the table, and its reference decodes back to the type. |
| TypeTableDecode.BuildFieldsDecodes | src/lang/processors/ir/serialization/type_parser.cc:100-111 | Built struct fields decode back to the declared fields. |
| TypeTableDecode.BuildMethodsDecodes | src/lang/processors/ir/serialization/type_parser.cc:133-144 | Built interface methods decode back to the declared methods. |
| TypeTableDecode.BuildTypesDecodes | src/lang/processors/ir/serialization/type_parser.cc:156-166 | Built type lists decode back to the declared types. |
| TypeTableDecode.ParsedTypeDecodes | src/lang/processors/ir/serialization/type_parser.cc:18-169 | decode(parse(serialize(t))) == t for every well-formed type `t`. |

## Left out

- The interference graph colourer (`ir_proc::ColorInterferenceGraph`) is a function parameter. Its algorithm is not part of this model.
- `TemporaryReg`, the scratch-register provider, is a function parameter. It returns the register and the code that acquires and restores it. How it picks, saves and restores a register is not part of this model.
- Instruction encoding and text rendering are left out. Instructions are plain data.
- Linker.Linker.ApplyPatches: does not model the bytes written. A resolved patch is the patch location paired with its target address. linker.cc, which encodes absolute or relative values, is not part of this model.
- Linker.Linker.AddFuncAddr: registering the same id again overwrites the old address; whether the linker rejects or keeps the old entry is decided in linker.cc, which is not part of this model. AddBlockAddr is modelled the same way.
- Linker.LinkTestProgram: the block ids and the order in which the encoder records patches are parameters or fixed choices. Program encoding is not part of this model.
- `ir_serialization::Scanner` is not part of this model. Its stand-in is as follows:
  - `Consume*` on a mismatch records an error and does not move.
  - Skipping past a comma stops just after it, or at the end.
  - Under this stand-in, a malformed entry that is not followed by a comma ends the entry loop.
- The base IR type parser is not part of this model. Its stand-in accepts one base type name, and `ParseTypes` accepts `T (, T)*`.
- The base IR checker (`::ir_check::Checker`) is a parameter that maps an instruction to its issues. The model assumes its dispatch sends load, store and mov instructions to the language's overrides, and that it raises nothing else for them.
- Issue positions and message texts are left out. An issue is its kind.
- IrChecker.Checker.CheckInstr: requires that every value whose type kind is read has a type. The source reads it without a null check, so a null type is undefined behaviour there.
- RegisterAllocator.PreferredColorsPlacement: assumes `SetColor` replaces an earlier colour for the same value; if it kept the first, a returned argument would keep its argument register. `ir_info::InterferenceGraphColors` is not part of this model, and RegisterAllocator.ArgHintsPlacement makes the same assumption for repeated arguments.
- RegisterAllocator.AllocateRegistersInFunc: requires every block to end in an instruction. The source calls `back()` without a check.
- Types are interned in the source. Pointer equality and `ir::IsEqual` are both structural equality here.
- Concurrency, I/O, memory mapping and execution of the generated code are outside this model.
- Phi resolution and live-range analysis are outside this model.

## Findings

| source | as written | input that shows it | evidently intended | confidence | as-written member | corrected member |
|---|---|---|---|---|---|---|
| src/lang/processors/ir/serialization/type_parser.cc:25-26,33-34 | The `lstr` and `ltypeid` branches of `ParseType` return the singleton type without consuming the keyword. The cursor stays on it. | The token `lstr`. The as-written parse returns with the cursor still on `lstr`. In `lunique_ptr<lstr>`, the caller's `ConsumeToken(kAngleClose)` would then meet `lstr` instead of `>`. | Consume the one-token keyword, as every other branch consumes its type. Then a serialized `lstr` reads back as the string type. | not executed | TypeGrammarRules.SingletonNotConsumedAsWritten | TypeGrammarRules.SingletonKeywords |
