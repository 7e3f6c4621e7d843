/** The grammar of the language's serialized IR types, as a function of a
    token sequence and a cursor:

      lshared_ptr<T, s|w>   lunique_ptr<T>   larray<T[, n]>   lstr   ltypeid
      lstruct[<name:T, ...>]   linterface[<name:(T, ...) => (T, ...), ...>]

    Every function takes the parse state (cursor, recorded scanner errors,
    program type table) and returns the parsed value with the new state, or
    the fatal error that aborts parsing. */
module TypeGrammar {
  import opened Wrappers

  // ---------------------------------------------------------------------
  // Tokens and the scanner.

  datatype PunctKind = AngleOpen | AngleClose | Comma | Colon | ParenOpen | ParenClose | Arrow | OtherPunct

  datatype Token = Ident(name: string) | IntLit(value: int) | Punct(kind: PunctKind)

  /** What a `Consume*` call expected when it found something else. */
  datatype Expected = ExpectIdentifier | ExpectInt | ExpectPunct(kind: PunctKind)

  /** An error the scanner records without stopping the parse. */
  datatype ScanError = UnexpectedToken(pos: nat, expected: Expected)

  /** A `fail(...)`, which aborts parsing. */
  datatype Fatal = ExpectedKeyword(keyword: string) | ExpectedStrength | UnknownType(pos: nat)

  // ---------------------------------------------------------------------
  // The program's type table.

  /** A parsed type: one of the base IR types, a shared singleton, or an
      entry of the program's type table. */
  datatype TypeRef = Builtin(name: string) | LangString | LangTypeId | EmptyStruct | EmptyInterface | Entry(index: nat)

  datatype Field = Field(name: string, fieldType: TypeRef)
  datatype Method = Method(name: string, parameters: seq<TypeRef>, results: seq<TypeRef>)

  datatype TypeEntry =
    | SharedPointer(strong: bool, element: TypeRef)
    | UniquePointer(element: TypeRef)
    | Array(element: TypeRef, fixedCount: Option<int>)
    | Struct(fields: seq<Field>)
    | Interface(methods: seq<Method>)

  datatype PState = PState(pos: nat, errors: seq<ScanError>, table: seq<TypeEntry>)

  datatype Parsed<T> = Parsed(value: T, st: PState)

  /** The names the base IR type parser accepts. */
  const BuiltinNames: set<string> := {"b", "i8", "i16", "i32", "i64", "u8", "u16", "u32", "u64", "ptr", "func"}

  /** Parsing only moves the cursor forward, never past the end, and only
      appends to the error list and the type table. */
  predicate Extends(st: PState, st2: PState, n: nat) {
    st.pos <= st2.pos <= n && st.errors <= st2.errors && st.table <= st2.table
  }

  predicate AtPunct(toks: seq<Token>, pos: nat, kind: PunctKind) {
    pos < |toks| && toks[pos] == Punct(kind)
  }

  predicate AtIdent(toks: seq<Token>, pos: nat) {
    pos < |toks| && toks[pos].Ident?
  }

  function Unexpected(st: PState, expected: Expected): PState {
    st.(errors := st.errors + [UnexpectedToken(st.pos, expected)])
  }

  /** `ConsumeIdentifier`: the identifier under the cursor, or an error and no movement. */
  function ConsumeIdentifier(toks: seq<Token>, st: PState): (r: (Option<string>, PState))
    requires st.pos <= |toks|
    ensures Extends(st, r.1, |toks|) && r.1.table == st.table
    ensures r.0.Some? <==> AtIdent(toks, st.pos)
    ensures r.0.Some? ==> r.1 == st.(pos := st.pos + 1) && toks[st.pos] == Ident(r.0.value)
    ensures r.0.None? ==> r.1 == Unexpected(st, ExpectIdentifier)
  {
    if AtIdent(toks, st.pos) then (Some(toks[st.pos].name), st.(pos := st.pos + 1))
    else (None, Unexpected(st, ExpectIdentifier))
  }

  /** `ConsumeToken(kind)`: steps over the expected punctuation, or records an error. */
  function ConsumeToken(toks: seq<Token>, st: PState, kind: PunctKind): (r: PState)
    requires st.pos <= |toks|
    ensures Extends(st, r, |toks|) && r.table == st.table
    ensures AtPunct(toks, st.pos, kind) ==> r == st.(pos := st.pos + 1)
    ensures !AtPunct(toks, st.pos, kind) ==> r == Unexpected(st, ExpectPunct(kind))
  {
    if AtPunct(toks, st.pos, kind) then st.(pos := st.pos + 1) else Unexpected(st, ExpectPunct(kind))
  }

  /** `ConsumeInt64`: the integer literal under the cursor, or an error and no movement. */
  function ConsumeInt64(toks: seq<Token>, st: PState): (r: (Option<int>, PState))
    requires st.pos <= |toks|
    ensures Extends(st, r.1, |toks|) && r.1.table == st.table
    ensures r.0.Some? <==> st.pos < |toks| && toks[st.pos].IntLit?
    ensures r.0.Some? ==> r.1 == st.(pos := st.pos + 1) && toks[st.pos] == IntLit(r.0.value)
  {
    if st.pos < |toks| && toks[st.pos].IntLit? then (Some(toks[st.pos].value), st.(pos := st.pos + 1))
    else (None, Unexpected(st, ExpectInt))
  }

  /** `SkipPastTokenSequence({kComma})`: moves the cursor just past the next
      comma, or to the end when there is none. */
  function SkipPastComma(toks: seq<Token>, st: PState): (r: PState)
    requires st.pos <= |toks|
    ensures Extends(st, r, |toks|) && r.errors == st.errors && r.table == st.table
    ensures r.pos == |toks| || (st.pos < r.pos && toks[r.pos - 1] == Punct(Comma))
    ensures forall i :: st.pos <= i < r.pos - 1 ==> toks[i] != Punct(Comma)
    decreases |toks| - st.pos
  {
    if st.pos == |toks| then st
    else if toks[st.pos] == Punct(Comma) then st.(pos := st.pos + 1)
    else SkipPastComma(toks, st.(pos := st.pos + 1))
  }

  /** The base IR type parser, which is not part of this model: one of the
      base type names, consumed. */
  function ParseBaseType(toks: seq<Token>, st: PState): (r: Result<Parsed<TypeRef>, Fatal>)
    requires st.pos <= |toks|
    ensures r.Success? <==> AtIdent(toks, st.pos) && toks[st.pos].name in BuiltinNames
    ensures r.Success? ==> r.value == Parsed(Builtin(toks[st.pos].name), st.(pos := st.pos + 1))
  {
    if AtIdent(toks, st.pos) && toks[st.pos].name in BuiltinNames then
      Success(Parsed(Builtin(toks[st.pos].name), st.(pos := st.pos + 1)))
    else Failure(UnknownType(st.pos))
  }

  /** Appends a newly built type to the table and refers to it. */
  function AddType(st: PState, entry: TypeEntry): (r: Parsed<TypeRef>) {
    Parsed(Entry(|st.table|), st.(table := st.table + [entry]))
  }

  /** The language types' keywords. */
  const Keywords: set<string> := {"lshared_ptr", "lunique_ptr", "lstr", "larray", "lstruct", "linterface", "ltypeid"}

  // ---------------------------------------------------------------------
  // The parser.

  /** `TypeParser::ParseType`: a language keyword selects its parser; any
      other token goes to the base parser. `lstr` and `ltypeid` are consumed
      here (see the findings on this function). */
  function ParseType(toks: seq<Token>, st: PState): (r: Result<Parsed<TypeRef>, Fatal>)
    requires st.pos <= |toks|
    ensures r.Success? ==> Extends(st, r.value.st, |toks|) && st.pos < r.value.st.pos
    decreases |toks| - st.pos, 3
  {
    if AtIdent(toks, st.pos) && toks[st.pos].name in Keywords then
      var name := toks[st.pos].name;
      if name == "lshared_ptr" then ParseSharedPointer(toks, st)
      else if name == "lunique_ptr" then ParseUniquePointer(toks, st)
      else if name == "lstr" then Success(Parsed(LangString, st.(pos := st.pos + 1)))
      else if name == "larray" then ParseArray(toks, st)
      else if name == "lstruct" then ParseStruct(toks, st)
      else if name == "linterface" then ParseInterface(toks, st)
      else Success(Parsed(LangTypeId, st.(pos := st.pos + 1)))
    else ParseBaseType(toks, st)
  }

  function ParseSharedPointer(toks: seq<Token>, st: PState): (r: Result<Parsed<TypeRef>, Fatal>)
    requires st.pos <= |toks|
    ensures r.Success? ==> Extends(st, r.value.st, |toks|) && st.pos < r.value.st.pos
    ensures r.Success? ==>
      |r.value.st.table| > |st.table| &&
      r.value.value == Entry(|r.value.st.table| - 1) && r.value.st.table[|r.value.st.table| - 1].SharedPointer?
    decreases |toks| - st.pos, 2
  {
    var id := ConsumeIdentifier(toks, st);
    var s1 := id.1;
    if id.0 != Some("lshared_ptr") then Failure(ExpectedKeyword("lshared_ptr"))
    else
      var s2 := ConsumeToken(toks, s1, AngleOpen);
      var element := ParseType(toks, s2);
      if element.Failure? then Failure(element.error)
      else
        var s3 := ConsumeToken(toks, element.value.st, Comma);
        var strength := ConsumeIdentifier(toks, s3);
        var s4 := strength.1;
        var c := if strength.0.Some? then strength.0.value else "s";
        if c != "s" && c != "w" then Failure(ExpectedStrength)
        else
          var s5 := ConsumeToken(toks, s4, AngleClose);
          Success(AddType(s5, SharedPointer(c == "s", element.value.value)))
  }

  function ParseUniquePointer(toks: seq<Token>, st: PState): (r: Result<Parsed<TypeRef>, Fatal>)
    requires st.pos <= |toks|
    ensures r.Success? ==> Extends(st, r.value.st, |toks|) && st.pos < r.value.st.pos
    ensures r.Success? ==>
      |r.value.st.table| > |st.table| &&
      r.value.value == Entry(|r.value.st.table| - 1) && r.value.st.table[|r.value.st.table| - 1].UniquePointer?
    decreases |toks| - st.pos, 2
  {
    var id := ConsumeIdentifier(toks, st);
    var s1 := id.1;
    if id.0 != Some("lunique_ptr") then Failure(ExpectedKeyword("lunique_ptr"))
    else
      var s2 := ConsumeToken(toks, s1, AngleOpen);
      var element := ParseType(toks, s2);
      if element.Failure? then Failure(element.error)
      else
        var s3 := ConsumeToken(toks, element.value.st, AngleClose);
        Success(AddType(s3, UniquePointer(element.value.value)))
  }

  function ParseArray(toks: seq<Token>, st: PState): (r: Result<Parsed<TypeRef>, Fatal>)
    requires st.pos <= |toks|
    ensures r.Success? ==> Extends(st, r.value.st, |toks|) && st.pos < r.value.st.pos
    ensures r.Success? ==>
      |r.value.st.table| > |st.table| &&
      r.value.value == Entry(|r.value.st.table| - 1) && r.value.st.table[|r.value.st.table| - 1].Array?
    decreases |toks| - st.pos, 2
  {
    var id := ConsumeIdentifier(toks, st);
    var s1 := id.1;
    if id.0 != Some("larray") then Failure(ExpectedKeyword("larray"))
    else
      var s2 := ConsumeToken(toks, s1, AngleOpen);
      var element := ParseType(toks, s2);
      if element.Failure? then Failure(element.error)
      else
        var s3 := element.value.st;
        if AtPunct(toks, s3.pos, Comma) then
          var count := ConsumeInt64(toks, ConsumeToken(toks, s3, Comma));
          var s5 := ConsumeToken(toks, count.1, AngleClose);
          Success(AddType(s5, Array(element.value.value, Some(if count.0.Some? then count.0.value else 0))))
        else
          var s5 := ConsumeToken(toks, s3, AngleClose);
          Success(AddType(s5, Array(element.value.value, None)))
  }

  function ParseStruct(toks: seq<Token>, st: PState): (r: Result<Parsed<TypeRef>, Fatal>)
    requires st.pos <= |toks|
    ensures r.Success? ==> Extends(st, r.value.st, |toks|) && st.pos < r.value.st.pos
    ensures r.Success? ==>
      (r.value.value == EmptyStruct && r.value.st.table == st.table) ||
      (|r.value.st.table| > |st.table| &&
       r.value.value == Entry(|r.value.st.table| - 1) && r.value.st.table[|r.value.st.table| - 1].Struct?)
    decreases |toks| - st.pos, 2
  {
    var id := ConsumeIdentifier(toks, st);
    var s1 := id.1;
    if id.0 != Some("lstruct") then Failure(ExpectedKeyword("lstruct"))
    else if !AtPunct(toks, s1.pos, AngleOpen) then Success(Parsed(EmptyStruct, s1))
    else
      var s2 := ConsumeToken(toks, s1, AngleOpen);
      var first := ParseStructField(toks, s2);
      if first.Failure? then Failure(first.error)
      else
        var fields := StructFieldsLoop(toks, first.value.st, first.value.value);
        if fields.Failure? then Failure(fields.error)
        else
          var s3 := ConsumeToken(toks, fields.value.st, AngleClose);
          Success(AddType(s3, Struct(fields.value.value)))
  }

  /** The `while (token == kComma)` loop of `ParseStruct`, from the fields
      gathered so far. */
  function StructFieldsLoop(toks: seq<Token>, st: PState, fields: seq<Field>): (r: Result<Parsed<seq<Field>>, Fatal>)
    requires st.pos <= |toks|
    ensures r.Success? ==> Extends(st, r.value.st, |toks|) && fields <= r.value.value
    ensures r.Success? ==> !AtPunct(toks, r.value.st.pos, Comma)
    decreases |toks| - st.pos, 0
  {
    if !AtPunct(toks, st.pos, Comma) then Success(Parsed(fields, st))
    else
      var next := ParseStructField(toks, ConsumeToken(toks, st, Comma));
      if next.Failure? then Failure(next.error)
      else StructFieldsLoop(toks, next.value.st, fields + next.value.value)
  }

  /** `ParseStructField`: `name : T`, or, when no identifier starts the
      field, an error and a skip past the next comma. The field, if any, is
      returned as a list of at most one. */
  function ParseStructField(toks: seq<Token>, st: PState): (r: Result<Parsed<seq<Field>>, Fatal>)
    requires st.pos <= |toks|
    ensures r.Success? ==> Extends(st, r.value.st, |toks|) && |r.value.value| <= 1
    ensures r.Success? && r.value.value == [] ==> !AtIdent(toks, st.pos)
    decreases |toks| - st.pos, 1
  {
    if !AtIdent(toks, st.pos) then
      Success(Parsed([], SkipPastComma(toks, Unexpected(st, ExpectIdentifier))))
    else
      var name := toks[st.pos].name;
      var s1 := ConsumeToken(toks, st.(pos := st.pos + 1), Colon);
      var fieldType := ParseType(toks, s1);
      if fieldType.Failure? then Failure(fieldType.error)
      else Success(Parsed([Field(name, fieldType.value.value)], fieldType.value.st))
  }

  function ParseInterface(toks: seq<Token>, st: PState): (r: Result<Parsed<TypeRef>, Fatal>)
    requires st.pos <= |toks|
    ensures r.Success? ==> Extends(st, r.value.st, |toks|) && st.pos < r.value.st.pos
    ensures r.Success? ==>
      (r.value.value == EmptyInterface && r.value.st.table == st.table) ||
      (|r.value.st.table| > |st.table| &&
       r.value.value == Entry(|r.value.st.table| - 1) && r.value.st.table[|r.value.st.table| - 1].Interface?)
    decreases |toks| - st.pos, 2
  {
    var id := ConsumeIdentifier(toks, st);
    var s1 := id.1;
    if id.0 != Some("linterface") then Failure(ExpectedKeyword("linterface"))
    else if !AtPunct(toks, s1.pos, AngleOpen) then Success(Parsed(EmptyInterface, s1))
    else
      var s2 := ConsumeToken(toks, s1, AngleOpen);
      var first := ParseInterfaceMethod(toks, s2);
      if first.Failure? then Failure(first.error)
      else
        var methods := InterfaceMethodsLoop(toks, first.value.st, first.value.value);
        if methods.Failure? then Failure(methods.error)
        else
          var s3 := ConsumeToken(toks, methods.value.st, AngleClose);
          Success(AddType(s3, Interface(methods.value.value)))
  }

  /** The `while (token == kComma)` loop of `ParseInterface`. */
  function InterfaceMethodsLoop(toks: seq<Token>, st: PState, methods: seq<Method>): (r: Result<Parsed<seq<Method>>, Fatal>)
    requires st.pos <= |toks|
    ensures r.Success? ==> Extends(st, r.value.st, |toks|) && methods <= r.value.value
    ensures r.Success? ==> !AtPunct(toks, r.value.st.pos, Comma)
    decreases |toks| - st.pos, 0
  {
    if !AtPunct(toks, st.pos, Comma) then Success(Parsed(methods, st))
    else
      var next := ParseInterfaceMethod(toks, ConsumeToken(toks, st, Comma));
      if next.Failure? then Failure(next.error)
      else InterfaceMethodsLoop(toks, next.value.st, methods + next.value.value)
  }

  /** A parameter or result list: none when `)` follows, else `ParseTypes`. */
  function ParseTypesUnlessClosed(toks: seq<Token>, st: PState): (r: Result<Parsed<seq<TypeRef>>, Fatal>)
    requires st.pos <= |toks|
    ensures r.Success? ==> Extends(st, r.value.st, |toks|)
    decreases |toks| - st.pos, 5
  {
    if AtPunct(toks, st.pos, ParenClose) then Success(Parsed([], st)) else ParseTypes(toks, st)
  }

  /** `ParseInterfaceMethod`: `name : ( T, ... ) => ( T, ... )`, or an error
      and a skip past the next comma. */
  function ParseInterfaceMethod(toks: seq<Token>, st: PState): (r: Result<Parsed<seq<Method>>, Fatal>)
    requires st.pos <= |toks|
    ensures r.Success? ==> Extends(st, r.value.st, |toks|) && |r.value.value| <= 1
    ensures r.Success? && r.value.value == [] ==> !AtIdent(toks, st.pos)
    decreases |toks| - st.pos, 1
  {
    if !AtIdent(toks, st.pos) then
      Success(Parsed([], SkipPastComma(toks, Unexpected(st, ExpectIdentifier))))
    else
      var name := toks[st.pos].name;
      var s1 := ConsumeToken(toks, ConsumeToken(toks, st.(pos := st.pos + 1), Colon), ParenOpen);
      var parameters := ParseTypesUnlessClosed(toks, s1);
      if parameters.Failure? then Failure(parameters.error)
      else
        var s2 := ConsumeToken(toks, ConsumeToken(toks, ConsumeToken(toks, parameters.value.st, ParenClose), Arrow), ParenOpen);
        var results := ParseTypesUnlessClosed(toks, s2);
        if results.Failure? then Failure(results.error)
        else
          var s3 := ConsumeToken(toks, results.value.st, ParenClose);
          Success(Parsed([Method(name, parameters.value.value, results.value.value)], s3))
  }

  /** `ParseTypes` of the base parser: `T (, T)*`, each type through the
      language's `ParseType`. */
  function ParseTypes(toks: seq<Token>, st: PState): (r: Result<Parsed<seq<TypeRef>>, Fatal>)
    requires st.pos <= |toks|
    ensures r.Success? ==> Extends(st, r.value.st, |toks|) && |r.value.value| >= 1
    decreases |toks| - st.pos, 4
  {
    var first := ParseType(toks, st);
    if first.Failure? then Failure(first.error)
    else TypesLoop(toks, first.value.st, [first.value.value])
  }

  function TypesLoop(toks: seq<Token>, st: PState, types: seq<TypeRef>): (r: Result<Parsed<seq<TypeRef>>, Fatal>)
    requires st.pos <= |toks|
    ensures r.Success? ==> Extends(st, r.value.st, |toks|) && types <= r.value.value
    ensures r.Success? ==> !AtPunct(toks, r.value.st.pos, Comma)
    decreases |toks| - st.pos, 0
  {
    if !AtPunct(toks, st.pos, Comma) then Success(Parsed(types, st))
    else
      var next := ParseType(toks, ConsumeToken(toks, st, Comma));
      if next.Failure? then Failure(next.error)
      else TypesLoop(toks, next.value.st, types + [next.value.value])
  }
}
