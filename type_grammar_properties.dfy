/** What the type grammar guarantees: serialized types parse back to the
    types they render, the table grows by exactly the types built, and the
    individual rules (strength, fixed counts, empty structs and interfaces,
    malformed entries) behave as the parser's code says. */
module TypeGrammarProperties {
  import opened Wrappers
  import opened TypeGrammar
  import opened TokenMatch
  import opened TypeGrammarRules

  // ---------------------------------------------------------------------
  // Language types as trees, their serialization and their table entries.

  datatype LangType =
    | BaseType(name: string)
    | StringType
    | TypeIdType
    | SharedPointerType(strong: bool, element: LangType)
    | UniquePointerType(element: LangType)
    | ArrayType(element: LangType, fixedCount: Option<int>)
    | StructType(fields: seq<FieldDecl>)
    | InterfaceType(methods: seq<MethodDecl>)

  datatype FieldDecl = FieldDecl(name: string, fieldType: LangType)
  datatype MethodDecl = MethodDecl(name: string, parameters: seq<LangType>, results: seq<LangType>)

  /** Every base type named is one the base parser knows. */
  predicate ValidType(t: LangType) {
    match t
    case BaseType(name) => name in BuiltinNames
    case StringType => true
    case TypeIdType => true
    case SharedPointerType(_, e) => ValidType(e)
    case UniquePointerType(e) => ValidType(e)
    case ArrayType(e, _) => ValidType(e)
    case StructType(fs) => ValidFields(fs)
    case InterfaceType(ms) => ValidMethods(ms)
  }

  predicate ValidFields(fs: seq<FieldDecl>) {
    fs == [] || (ValidType(fs[0].fieldType) && ValidFields(fs[1..]))
  }

  predicate ValidMethods(ms: seq<MethodDecl>) {
    ms == [] || (ValidTypes(ms[0].parameters) && ValidTypes(ms[0].results) && ValidMethods(ms[1..]))
  }

  predicate ValidTypes(ts: seq<LangType>) {
    ts == [] || (ValidType(ts[0]) && ValidTypes(ts[1..]))
  }

  /** The serialized form of a type, as the IR printer writes it. A struct or
      interface without members is written as its bare keyword. */
  function Render(t: LangType): seq<Token> {
    match t
    case BaseType(name) => [Ident(name)]
    case StringType => [Ident("lstr")]
    case TypeIdType => [Ident("ltypeid")]
    case SharedPointerType(strong, e) =>
      [Ident("lshared_ptr"), Punct(AngleOpen)] + Render(e)
      + [Punct(Comma), Ident(StrengthLetter(strong)), Punct(AngleClose)]
    case UniquePointerType(e) => [Ident("lunique_ptr"), Punct(AngleOpen)] + Render(e) + [Punct(AngleClose)]
    case ArrayType(e, count) =>
      [Ident("larray"), Punct(AngleOpen)] + Render(e)
      + (if count.Some? then [Punct(Comma), IntLit(count.value)] else []) + [Punct(AngleClose)]
    case StructType(fs) =>
      if fs == [] then [Ident("lstruct")]
      else [Ident("lstruct"), Punct(AngleOpen)] + RenderField(fs[0]) + RenderFieldsTail(fs[1..]) + [Punct(AngleClose)]
    case InterfaceType(ms) =>
      if ms == [] then [Ident("linterface")]
      else [Ident("linterface"), Punct(AngleOpen)] + RenderMethod(ms[0]) + RenderMethodsTail(ms[1..]) + [Punct(AngleClose)]
  }

  function RenderField(f: FieldDecl): seq<Token> {
    [Ident(f.name), Punct(Colon)] + Render(f.fieldType)
  }

  /** `, field` for each field. */
  function RenderFieldsTail(fs: seq<FieldDecl>): seq<Token> {
    if fs == [] then [] else [Punct(Comma)] + RenderField(fs[0]) + RenderFieldsTail(fs[1..])
  }

  function RenderMethod(m: MethodDecl): seq<Token> {
    [Ident(m.name), Punct(Colon), Punct(ParenOpen)] + RenderTypes(m.parameters)
    + [Punct(ParenClose), Punct(Arrow), Punct(ParenOpen)] + RenderTypes(m.results) + [Punct(ParenClose)]
  }

  function RenderMethodsTail(ms: seq<MethodDecl>): seq<Token> {
    if ms == [] then [] else [Punct(Comma)] + RenderMethod(ms[0]) + RenderMethodsTail(ms[1..])
  }

  /** `T, T, ...`; nothing for no types. */
  function RenderTypes(ts: seq<LangType>): seq<Token> {
    if ts == [] then [] else Render(ts[0]) + RenderTypesTail(ts[1..])
  }

  function RenderTypesTail(ts: seq<LangType>): seq<Token> {
    if ts == [] then [] else [Punct(Comma)] + Render(ts[0]) + RenderTypesTail(ts[1..])
  }

  /** The reference a type parses to and the table after parsing it: every
      pointer, array and non-empty struct or interface adds one entry, after
      the entries of its components. */
  function Build(t: LangType, table: seq<TypeEntry>): (TypeRef, seq<TypeEntry>) {
    match t
    case BaseType(name) => (Builtin(name), table)
    case StringType => (LangString, table)
    case TypeIdType => (LangTypeId, table)
    case SharedPointerType(strong, e) =>
      var inner := Build(e, table);
      (Entry(|inner.1|), inner.1 + [SharedPointer(strong, inner.0)])
    case UniquePointerType(e) =>
      var inner := Build(e, table);
      (Entry(|inner.1|), inner.1 + [UniquePointer(inner.0)])
    case ArrayType(e, count) =>
      var inner := Build(e, table);
      (Entry(|inner.1|), inner.1 + [Array(inner.0, count)])
    case StructType(fs) =>
      if fs == [] then (EmptyStruct, table)
      else
        var members := BuildFields(fs, table);
        (Entry(|members.1|), members.1 + [Struct(members.0)])
    case InterfaceType(ms) =>
      if ms == [] then (EmptyInterface, table)
      else
        var members := BuildMethods(ms, table);
        (Entry(|members.1|), members.1 + [Interface(members.0)])
  }

  function BuildFields(fs: seq<FieldDecl>, table: seq<TypeEntry>): (seq<Field>, seq<TypeEntry>) {
    if fs == [] then ([], table)
    else
      var first := Build(fs[0].fieldType, table);
      var rest := BuildFields(fs[1..], first.1);
      ([Field(fs[0].name, first.0)] + rest.0, rest.1)
  }

  function BuildMethod(m: MethodDecl, table: seq<TypeEntry>): (Method, seq<TypeEntry>) {
    var params := BuildTypes(m.parameters, table);
    var results := BuildTypes(m.results, params.1);
    (Method(m.name, params.0, results.0), results.1)
  }

  function BuildMethods(ms: seq<MethodDecl>, table: seq<TypeEntry>): (seq<Method>, seq<TypeEntry>) {
    if ms == [] then ([], table)
    else
      var first := BuildMethod(ms[0], table);
      var rest := BuildMethods(ms[1..], first.1);
      ([first.0] + rest.0, rest.1)
  }

  function BuildTypes(ts: seq<LangType>, table: seq<TypeEntry>): (seq<TypeRef>, seq<TypeEntry>) {
    if ts == [] then ([], table)
    else
      var first := Build(ts[0], table);
      var rest := BuildTypes(ts[1..], first.1);
      ([first.0] + rest.0, rest.1)
  }

  lemma RenderStartsWithIdent(t: LangType)
    ensures |Render(t)| >= 1 && Render(t)[0].Ident?
  {
  }

  lemma RenderTypesStart(ts: seq<LangType>)
    ensures ts != [] ==> |RenderTypes(ts)| >= 1 && RenderTypes(ts)[0].Ident?
  {
    if ts != [] {
      RenderStartsWithIdent(ts[0]);
    }
  }

  // ---------------------------------------------------------------------
  // Round trip. Each lemma is told where the rendered text ends (`end`) and
  // what follows it there.

  /** The parse of a type rendered from `st.pos` to `end`: its reference,
      with the cursor at `end` and the table `Build` describes. */
  function RenderedResult(t: LangType, st: PState, end: nat): Result<Parsed<TypeRef>, Fatal> {
    Success(Parsed(Build(t, st.table).0, st.(pos := end, table := Build(t, st.table).1)))
  }

  /** Parsing the serialization of a type yields the type: the reference and
      table `Build` describes, the cursor just past it, and no errors. Only
      a `<` right after it could change that (it would open the members of a
      bare `lstruct` or `linterface`). */
  lemma ParseRendered(toks: seq<Token>, st: PState, t: LangType)
    requires ValidType(t) && st.pos <= |toks|
    requires Matches(toks, st.pos, Render(t)) && !AtPunct(toks, st.pos + |Render(t)|, AngleOpen)
    ensures ParseType(toks, st) == RenderedResult(t, st, st.pos + |Render(t)|)
    ensures ParseType(toks, st).value.st.errors == st.errors
  {
    ParseRenderedTo(toks, st, t, st.pos + |Render(t)|);
  }

  lemma {:induction false} ParseRenderedTo(toks: seq<Token>, st: PState, t: LangType, end: nat)
    requires ValidType(t) && st.pos <= |toks|
    requires Matches(toks, st.pos, Render(t)) && end == st.pos + |Render(t)| && !AtPunct(toks, end, AngleOpen)
    ensures ParseType(toks, st) == RenderedResult(t, st, end)
    decreases t, 2
  {
    At(toks, st.pos, Render(t), 0);
    match t
    case BaseType(name) =>
      assert name !in Keywords;
    case StringType =>
    case TypeIdType =>
    case SharedPointerType(strong, e) =>
      assert ParseType(toks, st) == ParseSharedPointer(toks, st);
      ParseRenderedSharedPointer(toks, st, t, end);
    case UniquePointerType(e) =>
      assert ParseType(toks, st) == ParseUniquePointer(toks, st);
      ParseRenderedUniquePointer(toks, st, t, end);
    case ArrayType(e, count) =>
      assert ParseType(toks, st) == ParseArray(toks, st);
      ParseRenderedArray(toks, st, t, end);
    case StructType(fs) =>
      assert ParseType(toks, st) == ParseStruct(toks, st);
      ParseRenderedStruct(toks, st, t, end);
    case InterfaceType(ms) =>
      assert ParseType(toks, st) == ParseInterface(toks, st);
      ParseRenderedInterface(toks, st, t, end);
  }

  /** `keyword < T` with `T` rendered up to `q`: `T` parses to what it
      renders. */
  lemma {:induction false} ElementAt(toks: seq<Token>, st: PState, keyword: string, e: LangType, q: nat)
    requires ValidType(e) && st.pos + 1 < |toks|
    requires toks[st.pos] == Ident(keyword) && toks[st.pos + 1] == Punct(AngleOpen)
    requires Matches(toks, st.pos + 2, Render(e)) && q == st.pos + 2 + |Render(e)| && !AtPunct(toks, q, AngleOpen)
    ensures ElementParsed(toks, st, keyword, Build(e, st.table).0, st.(pos := q, table := Build(e, st.table).1))
    decreases e, 3
  {
    ParseRenderedTo(toks, st.(pos := st.pos + 2), e, q);
  }

  /** Where the parts of a rendered shared pointer sit: the keyword and
      `<`, the element from `p + 2`, then `, s >` or `, w >` from `q`. */
  lemma SharedPointerLayout(toks: seq<Token>, p: nat, t: LangType) returns (q: nat)
    requires t.SharedPointerType? && Matches(toks, p, Render(t))
    ensures q == p + 2 + |Render(t.element)| && p + |Render(t)| == q + 3 && q + 2 < |toks|
    ensures toks[p] == Ident("lshared_ptr") && toks[p + 1] == Punct(AngleOpen) && Matches(toks, p + 2, Render(t.element))
    ensures toks[q] == Punct(Comma) && toks[q + 1] == Ident(StrengthLetter(t.strong)) && toks[q + 2] == Punct(AngleClose)
  {
    var tail := [Punct(Comma), Ident(StrengthLetter(t.strong)), Punct(AngleClose)];
    assert Render(t) == [Ident("lshared_ptr"), Punct(AngleOpen)] + Render(t.element) + tail;
    Opened(toks, p, Ident("lshared_ptr"), Render(t.element), tail);
    q := p + 2 + |Render(t.element)|;
    Three(toks, q, tail);
  }

  lemma {:induction false} ParseRenderedSharedPointer(toks: seq<Token>, st: PState, t: LangType, end: nat)
    requires t.SharedPointerType? && ValidType(t) && st.pos <= |toks|
    requires Matches(toks, st.pos, Render(t)) && end == st.pos + |Render(t)|
    ensures ParseSharedPointer(toks, st) == RenderedResult(t, st, end)
    decreases t, 0
  {
    var q := SharedPointerLayout(toks, st.pos, t);
    ElementAt(toks, st, "lshared_ptr", t.element, q);
    var built := Build(t.element, st.table);
    SharedPointerWithStrength(toks, st, built.0, st.(pos := q, table := built.1), t.strong);
  }

  /** Where the parts of a rendered unique pointer sit: the keyword and
      `<`, the element from `p + 2`, then `>` at `q`. */
  lemma UniquePointerLayout(toks: seq<Token>, p: nat, t: LangType) returns (q: nat)
    requires t.UniquePointerType? && Matches(toks, p, Render(t))
    ensures q == p + 2 + |Render(t.element)| && p + |Render(t)| == q + 1 && q < |toks|
    ensures toks[p] == Ident("lunique_ptr") && toks[p + 1] == Punct(AngleOpen) && Matches(toks, p + 2, Render(t.element))
    ensures toks[q] == Punct(AngleClose)
  {
    var tail := [Punct(AngleClose)];
    assert Render(t) == [Ident("lunique_ptr"), Punct(AngleOpen)] + Render(t.element) + tail;
    Opened(toks, p, Ident("lunique_ptr"), Render(t.element), tail);
    q := p + 2 + |Render(t.element)|;
    One(toks, q, tail);
  }

  lemma {:induction false} ParseRenderedUniquePointer(toks: seq<Token>, st: PState, t: LangType, end: nat)
    requires t.UniquePointerType? && ValidType(t) && st.pos <= |toks|
    requires Matches(toks, st.pos, Render(t)) && end == st.pos + |Render(t)|
    ensures ParseUniquePointer(toks, st) == RenderedResult(t, st, end)
    decreases t, 0
  {
    var q := UniquePointerLayout(toks, st.pos, t);
    ElementAt(toks, st, "lunique_ptr", t.element, q);
    var built := Build(t.element, st.table);
    UniquePointerRule(toks, st, built.0, st.(pos := q, table := built.1));
  }

  lemma {:induction false} ParseRenderedArray(toks: seq<Token>, st: PState, t: LangType, end: nat)
    requires t.ArrayType? && ValidType(t) && st.pos <= |toks|
    requires Matches(toks, st.pos, Render(t)) && end == st.pos + |Render(t)|
    ensures ParseArray(toks, st) == RenderedResult(t, st, end)
    decreases t, 1
  {
    if t.fixedCount.Some? {
      ParseRenderedCountedArray(toks, st, t, end);
    } else {
      ParseRenderedOpenArray(toks, st, t, end);
    }
  }

  /** Where the parts of a rendered `larray<T, n>` sit: the keyword and `<`,
      the element from `p + 2`, then `, n >` from `q`. */
  lemma CountedArrayLayout(toks: seq<Token>, p: nat, t: LangType) returns (q: nat)
    requires t.ArrayType? && t.fixedCount.Some? && Matches(toks, p, Render(t))
    ensures q == p + 2 + |Render(t.element)| && p + |Render(t)| == q + 3 && q + 2 < |toks|
    ensures toks[p] == Ident("larray") && toks[p + 1] == Punct(AngleOpen) && Matches(toks, p + 2, Render(t.element))
    ensures toks[q] == Punct(Comma) && toks[q + 1] == IntLit(t.fixedCount.value) && toks[q + 2] == Punct(AngleClose)
  {
    var tail := [Punct(Comma), IntLit(t.fixedCount.value), Punct(AngleClose)];
    assert Render(t) == [Ident("larray"), Punct(AngleOpen)] + Render(t.element) + tail;
    Opened(toks, p, Ident("larray"), Render(t.element), tail);
    q := p + 2 + |Render(t.element)|;
    Three(toks, q, tail);
  }

  /** `larray<T, n>`. */
  lemma {:induction false} ParseRenderedCountedArray(toks: seq<Token>, st: PState, t: LangType, end: nat)
    requires t.ArrayType? && t.fixedCount.Some? && ValidType(t) && st.pos <= |toks|
    requires Matches(toks, st.pos, Render(t)) && end == st.pos + |Render(t)|
    ensures ParseArray(toks, st) == RenderedResult(t, st, end)
    decreases t, 0
  {
    var q := CountedArrayLayout(toks, st.pos, t);
    ElementAt(toks, st, "larray", t.element, q);
    var built := Build(t.element, st.table);
    ArrayWithCount(toks, st, built.0, st.(pos := q, table := built.1), t.fixedCount.value);
  }

  /** Where the parts of a rendered `larray<T>` sit: the keyword and `<`,
      the element from `p + 2`, then `>` at `q`. */
  lemma OpenArrayLayout(toks: seq<Token>, p: nat, t: LangType) returns (q: nat)
    requires t.ArrayType? && t.fixedCount.None? && Matches(toks, p, Render(t))
    ensures q == p + 2 + |Render(t.element)| && p + |Render(t)| == q + 1 && q < |toks|
    ensures toks[p] == Ident("larray") && toks[p + 1] == Punct(AngleOpen) && Matches(toks, p + 2, Render(t.element))
    ensures toks[q] == Punct(AngleClose)
  {
    var tail := [Punct(AngleClose)];
    assert Render(t) == [Ident("larray"), Punct(AngleOpen)] + Render(t.element) + tail;
    Opened(toks, p, Ident("larray"), Render(t.element), tail);
    q := p + 2 + |Render(t.element)|;
    One(toks, q, tail);
  }

  /** `larray<T>`. */
  lemma {:induction false} ParseRenderedOpenArray(toks: seq<Token>, st: PState, t: LangType, end: nat)
    requires t.ArrayType? && t.fixedCount.None? && ValidType(t) && st.pos <= |toks|
    requires Matches(toks, st.pos, Render(t)) && end == st.pos + |Render(t)|
    ensures ParseArray(toks, st) == RenderedResult(t, st, end)
    decreases t, 0
  {
    var q := OpenArrayLayout(toks, st.pos, t);
    ElementAt(toks, st, "larray", t.element, q);
    var built := Build(t.element, st.table);
    ArrayWithoutCount(toks, st, built.0, st.(pos := q, table := built.1));
  }

  lemma {:induction false} ParseRenderedStruct(toks: seq<Token>, st: PState, t: LangType, end: nat)
    requires t.StructType? && ValidType(t) && st.pos <= |toks|
    requires Matches(toks, st.pos, Render(t)) && end == st.pos + |Render(t)| && !AtPunct(toks, end, AngleOpen)
    ensures ParseStruct(toks, st) == RenderedResult(t, st, end)
    decreases t, 0
  {
    var p, fs := st.pos, t.fields;
    At(toks, p, Render(t), 0);
    if fs != [] {
      var first, rest := RenderField(fs[0]), RenderFieldsTail(fs[1..]);
      assert Render(t) == [Ident("lstruct"), Punct(AngleOpen)] + first + rest + [Punct(AngleClose)];
      Enclosed(toks, p, Ident("lstruct"), first, rest, Punct(AngleClose));
      var s2 := st.(pos := p + 2);
      assert ConsumeToken(toks, ConsumeIdentifier(toks, st).1, AngleOpen) == s2;
      var q2 := p + 2 + |first| + |rest|;
      StructMembers(toks, s2, fs, p + 2 + |first|, q2);
      var built := BuildFields(fs, st.table);
      assert ConsumeToken(toks, st.(pos := q2, table := built.1), AngleClose) == st.(pos := end, table := built.1);
    }
  }

  /** The fields between the `<` and `>` of a non-empty struct: the first
      field, then the loop over the rest. */
  lemma StructMembers(toks: seq<Token>, s2: PState, fs: seq<FieldDecl>, q1: nat, q2: nat)
    requires fs != [] && ValidFields(fs) && s2.pos <= |toks|
    requires Matches(toks, s2.pos, RenderField(fs[0])) && q1 == s2.pos + |RenderField(fs[0])|
    requires Matches(toks, q1, RenderFieldsTail(fs[1..])) && q2 == q1 + |RenderFieldsTail(fs[1..])|
    requires AtPunct(toks, q2, AngleClose)
    ensures ParseStructField(toks, s2).Success?
    ensures StructFieldsLoop(toks, ParseStructField(toks, s2).value.st, ParseStructField(toks, s2).value.value) ==
      Success(Parsed(BuildFields(fs, s2.table).0, s2.(pos := q2, table := BuildFields(fs, s2.table).1)))
    decreases fs, 3
  {
    assert ValidType(fs[0].fieldType) && ValidFields(fs[1..]);
    FollowsField(toks, q1, fs[1..], q2);
    ParseRenderedField(toks, s2, fs[0], q1);
    var first := Build(fs[0].fieldType, s2.table);
    ParseRenderedFieldsTail(toks, s2.(pos := q1, table := first.1), fs[1..], [Field(fs[0].name, first.0)], q2);
    BuildFieldsStep([], fs, s2.table);
    assert [] + [Field(fs[0].name, first.0)] == [Field(fs[0].name, first.0)];
  }

  lemma {:induction false} ParseRenderedField(toks: seq<Token>, st: PState, f: FieldDecl, end: nat)
    requires ValidType(f.fieldType) && st.pos <= |toks|
    requires Matches(toks, st.pos, RenderField(f)) && end == st.pos + |RenderField(f)| && !AtPunct(toks, end, AngleOpen)
    ensures ParseStructField(toks, st) ==
      Success(Parsed([Field(f.name, Build(f.fieldType, st.table).0)],
                     st.(pos := end, table := Build(f.fieldType, st.table).1)))
    decreases f, 2
  {
    var p := st.pos;
    Labelled(toks, p, Ident(f.name), Punct(Colon), Render(f.fieldType));
    var s1 := st.(pos := p + 2);
    assert ConsumeToken(toks, st.(pos := p + 1), Colon) == s1;
    ParseRenderedTo(toks, s1, f.fieldType, end);
  }

  /** What follows a field whose list tail `fs` ends at `end`: a comma, or
      the `>` at `end` itself. Either way, not a `<`. */
  lemma FollowsField(toks: seq<Token>, q: nat, fs: seq<FieldDecl>, end: nat)
    requires Matches(toks, q, RenderFieldsTail(fs)) && end == q + |RenderFieldsTail(fs)| && AtPunct(toks, end, AngleClose)
    ensures !AtPunct(toks, q, AngleOpen)
  {
    if fs != [] {
      At(toks, q, RenderFieldsTail(fs), 0);
    }
  }

  /** One turn of the field-list loop: a comma, then a field. */
  lemma FieldsLoopStep(toks: seq<Token>, st: PState, acc: seq<Field>, f: seq<Field>, s2: PState)
    requires st.pos < |toks| && toks[st.pos] == Punct(Comma)
    requires ParseStructField(toks, st.(pos := st.pos + 1)) == Success(Parsed(f, s2))
    ensures s2.pos <= |toks| && StructFieldsLoop(toks, st, acc) == StructFieldsLoop(toks, s2, acc + f)
  {
    assert ConsumeToken(toks, st, Comma) == st.(pos := st.pos + 1);
  }

  /** `BuildFields` one field at a time, onto an accumulated list. */
  lemma BuildFieldsStep(acc: seq<Field>, fs: seq<FieldDecl>, table: seq<TypeEntry>)
    requires fs != []
    ensures var first := Build(fs[0].fieldType, table);
      acc + [Field(fs[0].name, first.0)] + BuildFields(fs[1..], first.1).0 == acc + BuildFields(fs, table).0 &&
      BuildFields(fs[1..], first.1).1 == BuildFields(fs, table).1
  {
    var first := Build(fs[0].fieldType, table);
    var rest := BuildFields(fs[1..], first.1).0;
    assert acc + [Field(fs[0].name, first.0)] + rest == acc + ([Field(fs[0].name, first.0)] + rest);
  }

  /** The first `, field` of a rendered field-list tail: the loop goes on
      from `st2` with the field appended. */
  lemma FieldsTailHead(toks: seq<Token>, st: PState, fs: seq<FieldDecl>, acc: seq<Field>, end: nat)
      returns (st2: PState, acc2: seq<Field>)
    requires fs != [] && ValidFields(fs) && st.pos <= |toks|
    requires Matches(toks, st.pos, RenderFieldsTail(fs)) && end == st.pos + |RenderFieldsTail(fs)| && AtPunct(toks, end, AngleClose)
    ensures st2 == st.(pos := st2.pos, table := Build(fs[0].fieldType, st.table).1)
    ensures acc2 == acc + [Field(fs[0].name, Build(fs[0].fieldType, st.table).0)]
    ensures ValidFields(fs[1..]) && st2.pos <= |toks|
    ensures Matches(toks, st2.pos, RenderFieldsTail(fs[1..])) && end == st2.pos + |RenderFieldsTail(fs[1..])|
    ensures StructFieldsLoop(toks, st, acc) == StructFieldsLoop(toks, st2, acc2)
    decreases fs, 1
  {
    var p := st.pos;
    CommaThen(toks, p, RenderField(fs[0]), RenderFieldsTail(fs[1..]));
    var q := p + 1 + |RenderField(fs[0])|;
    assert ValidType(fs[0].fieldType) && ValidFields(fs[1..]);
    FollowsField(toks, q, fs[1..], end);
    ParseRenderedField(toks, st.(pos := p + 1), fs[0], q);
    var first := Build(fs[0].fieldType, st.table);
    st2, acc2 := st.(pos := q, table := first.1), acc + [Field(fs[0].name, first.0)];
    FieldsLoopStep(toks, st, acc, [Field(fs[0].name, first.0)], st2);
  }

  /** The field-list loop reads `, field` repeatedly up to the closing `>`. */
  lemma {:induction false} ParseRenderedFieldsTail(toks: seq<Token>, st: PState, fs: seq<FieldDecl>, acc: seq<Field>, end: nat)
    requires ValidFields(fs) && st.pos <= |toks|
    requires Matches(toks, st.pos, RenderFieldsTail(fs)) && end == st.pos + |RenderFieldsTail(fs)| && AtPunct(toks, end, AngleClose)
    ensures StructFieldsLoop(toks, st, acc) ==
      Success(Parsed(acc + BuildFields(fs, st.table).0, st.(pos := end, table := BuildFields(fs, st.table).1)))
    decreases fs, 2
  {
    if fs == [] {
      assert acc + [] == acc;
    } else {
      var st2, acc2 := FieldsTailHead(toks, st, fs, acc, end);
      ParseRenderedFieldsTail(toks, st2, fs[1..], acc2, end);
      BuildFieldsStep(acc, fs, st.table);
    }
  }

  lemma {:induction false} ParseRenderedInterface(toks: seq<Token>, st: PState, t: LangType, end: nat)
    requires t.InterfaceType? && ValidType(t) && st.pos <= |toks|
    requires Matches(toks, st.pos, Render(t)) && end == st.pos + |Render(t)| && !AtPunct(toks, end, AngleOpen)
    ensures ParseInterface(toks, st) == RenderedResult(t, st, end)
    decreases t, 0
  {
    var p, ms := st.pos, t.methods;
    At(toks, p, Render(t), 0);
    if ms != [] {
      var first, rest := RenderMethod(ms[0]), RenderMethodsTail(ms[1..]);
      assert Render(t) == [Ident("linterface"), Punct(AngleOpen)] + first + rest + [Punct(AngleClose)];
      Enclosed(toks, p, Ident("linterface"), first, rest, Punct(AngleClose));
      var s2 := st.(pos := p + 2);
      assert ConsumeToken(toks, ConsumeIdentifier(toks, st).1, AngleOpen) == s2;
      var q2 := p + 2 + |first| + |rest|;
      InterfaceMembers(toks, s2, ms, p + 2 + |first|, q2);
      var built := BuildMethods(ms, st.table);
      assert ConsumeToken(toks, st.(pos := q2, table := built.1), AngleClose) == st.(pos := end, table := built.1);
    }
  }

  /** The methods between the `<` and `>` of a non-empty interface: the
      first method, then the loop over the rest. */
  lemma InterfaceMembers(toks: seq<Token>, s2: PState, ms: seq<MethodDecl>, q1: nat, q2: nat)
    requires ms != [] && ValidMethods(ms) && s2.pos <= |toks|
    requires Matches(toks, s2.pos, RenderMethod(ms[0])) && q1 == s2.pos + |RenderMethod(ms[0])|
    requires Matches(toks, q1, RenderMethodsTail(ms[1..])) && q2 == q1 + |RenderMethodsTail(ms[1..])|
    requires AtPunct(toks, q2, AngleClose)
    ensures ParseInterfaceMethod(toks, s2).Success?
    ensures InterfaceMethodsLoop(toks, ParseInterfaceMethod(toks, s2).value.st, ParseInterfaceMethod(toks, s2).value.value) ==
      Success(Parsed(BuildMethods(ms, s2.table).0, s2.(pos := q2, table := BuildMethods(ms, s2.table).1)))
    decreases ms, 4
  {
    assert ValidTypes(ms[0].parameters) && ValidTypes(ms[0].results) && ValidMethods(ms[1..]);
    ParseRenderedMethod(toks, s2, ms[0], q1);
    var first := BuildMethod(ms[0], s2.table);
    ParseRenderedMethodsTail(toks, s2.(pos := q1, table := first.1), ms[1..], [first.0], q2);
    BuildMethodsStep([], ms, s2.table);
    assert [] + [first.0] == [first.0];
  }

  lemma {:induction false} ParseRenderedMethod(toks: seq<Token>, st: PState, m: MethodDecl, end: nat)
    requires ValidTypes(m.parameters) && ValidTypes(m.results) && st.pos <= |toks|
    requires Matches(toks, st.pos, RenderMethod(m)) && end == st.pos + |RenderMethod(m)|
    ensures ParseInterfaceMethod(toks, st) ==
      Success(Parsed([BuildMethod(m, st.table).0], st.(pos := end, table := BuildMethod(m, st.table).1)))
    decreases m, 3
  {
    var p, ps, rs := st.pos, RenderTypes(m.parameters), RenderTypes(m.results);
    assert RenderMethod(m) == [Ident(m.name), Punct(Colon), Punct(ParenOpen)] + ps
      + [Punct(ParenClose), Punct(Arrow), Punct(ParenOpen)] + rs + [Punct(ParenClose)];
    Signature(toks, p, m.name, ps, rs);
    ParseMethodAt(toks, st, m, p + 3 + |ps|, end - 1);
  }

  /** `: (` after a method name. */
  lemma ColonOpen(toks: seq<Token>, s: PState)
    requires s.pos + 1 < |toks| && toks[s.pos] == Punct(Colon) && toks[s.pos + 1] == Punct(ParenOpen)
    ensures ConsumeToken(toks, ConsumeToken(toks, s, Colon), ParenOpen) == s.(pos := s.pos + 2)
  {
  }

  /** `) => (` between a method's parameters and results. */
  lemma CloseArrowOpen(toks: seq<Token>, s: PState)
    requires s.pos + 2 < |toks| && toks[s.pos] == Punct(ParenClose)
    requires toks[s.pos + 1] == Punct(Arrow) && toks[s.pos + 2] == Punct(ParenOpen)
    ensures ConsumeToken(toks, ConsumeToken(toks, ConsumeToken(toks, s, ParenClose), Arrow), ParenOpen) == s.(pos := s.pos + 3)
  {
  }

  /** The walk through `name : ( parameters ) => ( results )` once the
      tokens are known to be in place: the parameters end at `q1`, the
      results at `q2`. */
  lemma {:induction false} ParseMethodAt(toks: seq<Token>, st: PState, m: MethodDecl, q1: nat, q2: nat)
    requires ValidTypes(m.parameters) && ValidTypes(m.results)
    requires q1 == st.pos + 3 + |RenderTypes(m.parameters)| && q2 == q1 + 3 + |RenderTypes(m.results)| && q2 < |toks|
    requires toks[st.pos] == Ident(m.name) && toks[st.pos + 1] == Punct(Colon) && toks[st.pos + 2] == Punct(ParenOpen)
    requires Matches(toks, st.pos + 3, RenderTypes(m.parameters)) && AtPunct(toks, q1, ParenClose)
    requires toks[q1 + 1] == Punct(Arrow) && toks[q1 + 2] == Punct(ParenOpen)
    requires Matches(toks, q1 + 3, RenderTypes(m.results)) && AtPunct(toks, q2, ParenClose)
    ensures ParseInterfaceMethod(toks, st) ==
      Success(Parsed([BuildMethod(m, st.table).0], st.(pos := q2 + 1, table := BuildMethod(m, st.table).1)))
    decreases m, 2
  {
    var p := st.pos;
    ColonOpen(toks, st.(pos := p + 1));
    ParseRenderedTypeList(toks, st.(pos := p + 3), m.parameters, q1);
    var params := BuildTypes(m.parameters, st.table);
    CloseArrowOpen(toks, st.(pos := q1, table := params.1));
    ParseRenderedTypeList(toks, st.(pos := q1 + 3, table := params.1), m.results, q2);
  }

  /** A parameter or result list between parentheses, possibly empty. */
  lemma {:induction false} ParseRenderedTypeList(toks: seq<Token>, st: PState, ts: seq<LangType>, end: nat)
    requires ValidTypes(ts) && st.pos <= |toks|
    requires Matches(toks, st.pos, RenderTypes(ts)) && end == st.pos + |RenderTypes(ts)| && AtPunct(toks, end, ParenClose)
    ensures ParseTypesUnlessClosed(toks, st) ==
      Success(Parsed(BuildTypes(ts, st.table).0, st.(pos := end, table := BuildTypes(ts, st.table).1)))
    decreases ts, 1
  {
    if ts != [] {
      RenderTypesStart(ts);
      At(toks, st.pos, RenderTypes(ts), 0);
      ParseRenderedTypes(toks, st, ts, end);
    }
  }

  lemma {:induction false} ParseRenderedTypes(toks: seq<Token>, st: PState, ts: seq<LangType>, end: nat)
    requires ts != [] && ValidTypes(ts) && st.pos <= |toks|
    requires Matches(toks, st.pos, RenderTypes(ts)) && end == st.pos + |RenderTypes(ts)| && AtPunct(toks, end, ParenClose)
    ensures ParseTypes(toks, st) ==
      Success(Parsed(BuildTypes(ts, st.table).0, st.(pos := end, table := BuildTypes(ts, st.table).1)))
    decreases ts, 0
  {
    var p := st.pos;
    var rest := RenderTypesTail(ts[1..]);
    Split(toks, p, Render(ts[0]), rest);
    var q := p + |Render(ts[0])|;
    FollowsType(toks, q, ts[1..], end);
    assert ValidType(ts[0]) && ValidTypes(ts[1..]);
    ParseRenderedTo(toks, st, ts[0], q);
    var first := Build(ts[0], st.table);
    ParseRenderedTypesTail(toks, st.(pos := q, table := first.1), ts[1..], [first.0], end);
    BuildTypesStep([], ts, st.table);
    assert [] + [first.0] == [first.0];
  }

  /** What follows a type whose list tail `ts` ends at `end`: a comma, or
      the `)` at `end` itself. Either way, not a `<`. */
  lemma FollowsType(toks: seq<Token>, q: nat, ts: seq<LangType>, end: nat)
    requires Matches(toks, q, RenderTypesTail(ts)) && end == q + |RenderTypesTail(ts)| && AtPunct(toks, end, ParenClose)
    ensures !AtPunct(toks, q, AngleOpen)
  {
    if ts != [] {
      At(toks, q, RenderTypesTail(ts), 0);
    }
  }

  /** One turn of the type-list loop: a comma, then a type. */
  lemma TypesLoopStep(toks: seq<Token>, st: PState, acc: seq<TypeRef>, r0: TypeRef, s2: PState)
    requires st.pos < |toks| && toks[st.pos] == Punct(Comma)
    requires ParseType(toks, st.(pos := st.pos + 1)) == Success(Parsed(r0, s2))
    ensures s2.pos <= |toks| && TypesLoop(toks, st, acc) == TypesLoop(toks, s2, acc + [r0])
  {
    assert ConsumeToken(toks, st, Comma) == st.(pos := st.pos + 1);
  }

  /** `BuildTypes` one type at a time, onto an accumulated list. */
  lemma BuildTypesStep(acc: seq<TypeRef>, ts: seq<LangType>, table: seq<TypeEntry>)
    requires ts != []
    ensures var first := Build(ts[0], table);
      acc + [first.0] + BuildTypes(ts[1..], first.1).0 == acc + BuildTypes(ts, table).0 &&
      BuildTypes(ts[1..], first.1).1 == BuildTypes(ts, table).1
  {
    var first := Build(ts[0], table);
    var rest := BuildTypes(ts[1..], first.1).0;
    assert acc + [first.0] + rest == acc + ([first.0] + rest);
  }

  /** The first `, type` of a rendered type-list tail: the loop goes on
      from `st2` with the type appended. */
  lemma TypesTailHead(toks: seq<Token>, st: PState, ts: seq<LangType>, acc: seq<TypeRef>, end: nat)
      returns (st2: PState, acc2: seq<TypeRef>)
    requires ts != [] && ValidTypes(ts) && st.pos <= |toks|
    requires Matches(toks, st.pos, RenderTypesTail(ts)) && end == st.pos + |RenderTypesTail(ts)| && AtPunct(toks, end, ParenClose)
    ensures st2 == st.(pos := st2.pos, table := Build(ts[0], st.table).1)
    ensures acc2 == acc + [Build(ts[0], st.table).0]
    ensures ValidTypes(ts[1..]) && st2.pos <= |toks|
    ensures Matches(toks, st2.pos, RenderTypesTail(ts[1..])) && end == st2.pos + |RenderTypesTail(ts[1..])|
    ensures TypesLoop(toks, st, acc) == TypesLoop(toks, st2, acc2)
    decreases ts, 1
  {
    var p := st.pos;
    CommaThen(toks, p, Render(ts[0]), RenderTypesTail(ts[1..]));
    var q := p + 1 + |Render(ts[0])|;
    assert ValidType(ts[0]) && ValidTypes(ts[1..]);
    FollowsType(toks, q, ts[1..], end);
    ParseRenderedTo(toks, st.(pos := p + 1), ts[0], q);
    var first := Build(ts[0], st.table);
    st2, acc2 := st.(pos := q, table := first.1), acc + [first.0];
    TypesLoopStep(toks, st, acc, first.0, st2);
  }

  lemma {:induction false} ParseRenderedTypesTail(toks: seq<Token>, st: PState, ts: seq<LangType>, acc: seq<TypeRef>, end: nat)
    requires ValidTypes(ts) && st.pos <= |toks|
    requires Matches(toks, st.pos, RenderTypesTail(ts)) && end == st.pos + |RenderTypesTail(ts)| && AtPunct(toks, end, ParenClose)
    ensures TypesLoop(toks, st, acc) ==
      Success(Parsed(acc + BuildTypes(ts, st.table).0, st.(pos := end, table := BuildTypes(ts, st.table).1)))
    decreases ts, 2
  {
    if ts == [] {
      assert acc + [] == acc;
    } else {
      var st2, acc2 := TypesTailHead(toks, st, ts, acc, end);
      ParseRenderedTypesTail(toks, st2, ts[1..], acc2, end);
      BuildTypesStep(acc, ts, st.table);
    }
  }

  /** One turn of the method-list loop: a comma, then a method. */
  lemma MethodsLoopStep(toks: seq<Token>, st: PState, acc: seq<Method>, m: seq<Method>, s2: PState)
    requires st.pos < |toks| && toks[st.pos] == Punct(Comma)
    requires ParseInterfaceMethod(toks, st.(pos := st.pos + 1)) == Success(Parsed(m, s2))
    ensures s2.pos <= |toks| && InterfaceMethodsLoop(toks, st, acc) == InterfaceMethodsLoop(toks, s2, acc + m)
  {
    assert ConsumeToken(toks, st, Comma) == st.(pos := st.pos + 1);
  }

  /** `BuildMethods` one method at a time, onto an accumulated list. */
  lemma BuildMethodsStep(acc: seq<Method>, ms: seq<MethodDecl>, table: seq<TypeEntry>)
    requires ms != []
    ensures var first := BuildMethod(ms[0], table);
      acc + [first.0] + BuildMethods(ms[1..], first.1).0 == acc + BuildMethods(ms, table).0 &&
      BuildMethods(ms[1..], first.1).1 == BuildMethods(ms, table).1
  {
    var first := BuildMethod(ms[0], table);
    var rest := BuildMethods(ms[1..], first.1).0;
    assert acc + [first.0] + rest == acc + ([first.0] + rest);
  }

  /** The first `, method` of a rendered method-list tail: the loop goes
      on from `st2` with the method appended. */
  lemma MethodsTailHead(toks: seq<Token>, st: PState, ms: seq<MethodDecl>, acc: seq<Method>, end: nat)
      returns (st2: PState, acc2: seq<Method>)
    requires ms != [] && ValidMethods(ms) && st.pos <= |toks|
    requires Matches(toks, st.pos, RenderMethodsTail(ms)) && end == st.pos + |RenderMethodsTail(ms)|
    ensures st2 == st.(pos := st2.pos, table := BuildMethod(ms[0], st.table).1)
    ensures acc2 == acc + [BuildMethod(ms[0], st.table).0]
    ensures ValidMethods(ms[1..]) && st2.pos <= |toks|
    ensures Matches(toks, st2.pos, RenderMethodsTail(ms[1..])) && end == st2.pos + |RenderMethodsTail(ms[1..])|
    ensures InterfaceMethodsLoop(toks, st, acc) == InterfaceMethodsLoop(toks, st2, acc2)
    decreases ms, 1
  {
    var p := st.pos;
    CommaThen(toks, p, RenderMethod(ms[0]), RenderMethodsTail(ms[1..]));
    var q := p + 1 + |RenderMethod(ms[0])|;
    assert ValidTypes(ms[0].parameters) && ValidTypes(ms[0].results) && ValidMethods(ms[1..]);
    ParseRenderedMethod(toks, st.(pos := p + 1), ms[0], q);
    var first := BuildMethod(ms[0], st.table);
    st2, acc2 := st.(pos := q, table := first.1), acc + [first.0];
    MethodsLoopStep(toks, st, acc, [first.0], st2);
  }

  lemma {:induction false} ParseRenderedMethodsTail(toks: seq<Token>, st: PState, ms: seq<MethodDecl>, acc: seq<Method>, end: nat)
    requires ValidMethods(ms) && st.pos <= |toks|
    requires Matches(toks, st.pos, RenderMethodsTail(ms)) && end == st.pos + |RenderMethodsTail(ms)| && AtPunct(toks, end, AngleClose)
    ensures InterfaceMethodsLoop(toks, st, acc) ==
      Success(Parsed(acc + BuildMethods(ms, st.table).0, st.(pos := end, table := BuildMethods(ms, st.table).1)))
    decreases ms, 2
  {
    if ms == [] {
      assert acc + [] == acc;
    } else {
      var st2, acc2 := MethodsTailHead(toks, st, ms, acc, end);
      ParseRenderedMethodsTail(toks, st2, ms[1..], acc2, end);
      BuildMethodsStep(acc, ms, st.table);
    }
  }
}
