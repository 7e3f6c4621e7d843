/** Reading a parsed type back out of the program's type table: a reference
    and the table it points into determine the type tree again. Together with
    the round trip of `TypeGrammarProperties` this closes the loop from a
    type, through its serialization and the parser, back to the same type. */
module TypeTableDecode {
  import opened Wrappers
  import opened TypeGrammar
  import opened TokenMatch
  import opened TypeGrammarProperties

  /** The type a reference denotes in `table`. An entry is read against the
      entries before it only, since a type is added after its components. */
  function DecodeRef(r: TypeRef, table: seq<TypeEntry>): Option<LangType>
    decreases |table|, 1, 0
  {
    match r
    case Builtin(name) => Some(BaseType(name))
    case LangString => Some(StringType)
    case LangTypeId => Some(TypeIdType)
    case EmptyStruct => Some(StructType([]))
    case EmptyInterface => Some(InterfaceType([]))
    case Entry(i) => if i < |table| then DecodeEntry(table[i], table[..i]) else None
  }

  function DecodeEntry(e: TypeEntry, table: seq<TypeEntry>): Option<LangType>
    decreases |table|, 4, 0
  {
    match e
    case SharedPointer(strong, element) =>
      var d := DecodeRef(element, table);
      if d.None? then None else Some(SharedPointerType(strong, d.value))
    case UniquePointer(element) =>
      var d := DecodeRef(element, table);
      if d.None? then None else Some(UniquePointerType(d.value))
    case Array(element, count) =>
      var d := DecodeRef(element, table);
      if d.None? then None else Some(ArrayType(d.value, count))
    case Struct(fields) =>
      var d := DecodeFields(fields, table);
      if d.None? then None else Some(StructType(d.value))
    case Interface(methods) =>
      var d := DecodeMethods(methods, table);
      if d.None? then None else Some(InterfaceType(d.value))
  }

  function DecodeFields(fs: seq<Field>, table: seq<TypeEntry>): Option<seq<FieldDecl>>
    decreases |table|, 2, |fs|
  {
    if fs == [] then Some([])
    else
      var first := DecodeRef(fs[0].fieldType, table);
      var rest := DecodeFields(fs[1..], table);
      if first.None? || rest.None? then None else Some([FieldDecl(fs[0].name, first.value)] + rest.value)
  }

  function DecodeMethods(ms: seq<Method>, table: seq<TypeEntry>): Option<seq<MethodDecl>>
    decreases |table|, 3, |ms|
  {
    if ms == [] then Some([])
    else
      var parameters := DecodeTypes(ms[0].parameters, table);
      var results := DecodeTypes(ms[0].results, table);
      var rest := DecodeMethods(ms[1..], table);
      if parameters.None? || results.None? || rest.None? then None
      else Some([MethodDecl(ms[0].name, parameters.value, results.value)] + rest.value)
  }

  function DecodeTypes(ts: seq<TypeRef>, table: seq<TypeEntry>): Option<seq<LangType>>
    decreases |table|, 2, |ts|
  {
    if ts == [] then Some([])
    else
      var first := DecodeRef(ts[0], table);
      var rest := DecodeTypes(ts[1..], table);
      if first.None? || rest.None? then None else Some([first.value] + rest.value)
  }

  // ---------------------------------------------------------------------
  // Adding types to the table does not change what earlier references mean.

  lemma DecodeRefStable(r: TypeRef, table: seq<TypeEntry>, longer: seq<TypeEntry>)
    requires table <= longer && DecodeRef(r, table).Some?
    ensures DecodeRef(r, longer) == DecodeRef(r, table)
  {
    if r.Entry? {
      assert longer[..r.index] == table[..r.index];
    }
  }

  lemma {:induction false} DecodeTypesStable(ts: seq<TypeRef>, table: seq<TypeEntry>, longer: seq<TypeEntry>)
    requires table <= longer && DecodeTypes(ts, table).Some?
    ensures DecodeTypes(ts, longer) == DecodeTypes(ts, table)
    decreases |ts|
  {
    if ts != [] {
      DecodeRefStable(ts[0], table, longer);
      DecodeTypesStable(ts[1..], table, longer);
    }
  }

  // ---------------------------------------------------------------------
  // What `Build` adds to the table decodes to the type it was built from.

  /** Building a type only appends to the table, and the reference it yields
      decodes, in the new table, to that type. */
  lemma {:induction false} BuildDecodes(t: LangType, table: seq<TypeEntry>)
    ensures table <= Build(t, table).1
    ensures DecodeRef(Build(t, table).0, Build(t, table).1) == Some(t)
    decreases t, 1
  {
    match t
    case BaseType(_) =>
    case StringType =>
    case TypeIdType =>
    case SharedPointerType(strong, e) =>
      BuildEntryDecodes(t, e, table);
    case UniquePointerType(e) =>
      BuildEntryDecodes(t, e, table);
    case ArrayType(e, count) =>
      BuildEntryDecodes(t, e, table);
    case StructType(fs) =>
      if fs != [] {
        BuildFieldsDecodes(fs, table);
        var members := BuildFields(fs, table);
        assert (members.1 + [Struct(members.0)])[..|members.1|] == members.1;
      }
    case InterfaceType(ms) =>
      if ms != [] {
        BuildMethodsDecodes(ms, table);
        var members := BuildMethods(ms, table);
        assert (members.1 + [Interface(members.0)])[..|members.1|] == members.1;
      }
  }

  /** A pointer or array: one entry after the element's. */
  lemma {:induction false} BuildEntryDecodes(t: LangType, e: LangType, table: seq<TypeEntry>)
    requires t.SharedPointerType? || t.UniquePointerType? || t.ArrayType?
    requires e == t.element
    ensures table <= Build(t, table).1
    ensures DecodeRef(Build(t, table).0, Build(t, table).1) == Some(t)
    decreases t, 0
  {
    BuildDecodes(e, table);
    var inner := Build(e, table);
    var entry := Build(t, table).1[|inner.1|];
    assert Build(t, table).1 == inner.1 + [entry];
    assert (inner.1 + [entry])[..|inner.1|] == inner.1;
  }

  lemma {:induction false} BuildFieldsDecodes(fs: seq<FieldDecl>, table: seq<TypeEntry>)
    ensures table <= BuildFields(fs, table).1
    ensures DecodeFields(BuildFields(fs, table).0, BuildFields(fs, table).1) == Some(fs)
    decreases fs
  {
    if fs != [] {
      assert fs[0] in fs;
      BuildDecodes(fs[0].fieldType, table);
      var first := Build(fs[0].fieldType, table);
      BuildFieldsDecodes(fs[1..], first.1);
      var rest := BuildFields(fs[1..], first.1);
      DecodeRefStable(first.0, first.1, rest.1);
      var built := [Field(fs[0].name, first.0)] + rest.0;
      assert built[1..] == rest.0;
      assert fs == [FieldDecl(fs[0].name, fs[0].fieldType)] + fs[1..];
    }
  }

  lemma {:induction false} BuildTypesDecodes(ts: seq<LangType>, table: seq<TypeEntry>)
    ensures table <= BuildTypes(ts, table).1
    ensures DecodeTypes(BuildTypes(ts, table).0, BuildTypes(ts, table).1) == Some(ts)
    decreases ts
  {
    if ts != [] {
      assert ts[0] in ts;
      BuildDecodes(ts[0], table);
      var first := Build(ts[0], table);
      BuildTypesDecodes(ts[1..], first.1);
      var rest := BuildTypes(ts[1..], first.1);
      DecodeRefStable(first.0, first.1, rest.1);
      var built := [first.0] + rest.0;
      assert built[1..] == rest.0;
      assert ts == [ts[0]] + ts[1..];
    }
  }

  lemma {:induction false} BuildMethodsDecodes(ms: seq<MethodDecl>, table: seq<TypeEntry>)
    ensures table <= BuildMethods(ms, table).1
    ensures DecodeMethods(BuildMethods(ms, table).0, BuildMethods(ms, table).1) == Some(ms)
    decreases ms
  {
    if ms != [] {
      var m := ms[0];
      assert m in ms;
      BuildTypesDecodes(m.parameters, table);
      var params := BuildTypes(m.parameters, table);
      BuildTypesDecodes(m.results, params.1);
      var results := BuildTypes(m.results, params.1);
      var first := BuildMethod(m, table);
      BuildMethodsDecodes(ms[1..], first.1);
      var rest := BuildMethods(ms[1..], first.1);
      DecodeTypesStable(params.0, params.1, rest.1);
      DecodeTypesStable(results.0, results.1, rest.1);
      var built := [first.0] + rest.0;
      assert built[0] == Method(m.name, params.0, results.0);
      assert built[1..] == rest.0;
      assert ms == [MethodDecl(m.name, m.parameters, m.results)] + ms[1..];
    }
  }

  // ---------------------------------------------------------------------
  // The full round trip.

  /** A parse that succeeded and whose result reads back as `t`. */
  predicate DecodesTo(r: Result<Parsed<TypeRef>, Fatal>, t: LangType) {
    r.Success? && DecodeRef(r.value.value, r.value.st.table) == Some(t)
  }

  /** Parsing the serialization of a type and reading the result back out of
      the type table gives the type again: the parse is the one `Build`
      describes, and that reads back as `t`. (That the parse only appends to
      the table is part of `ParseType`'s own contract.) */
  lemma ParsedTypeDecodes(toks: seq<Token>, st: PState, t: LangType)
    requires ValidType(t) && st.pos <= |toks|
    requires Matches(toks, st.pos, Render(t)) && !AtPunct(toks, st.pos + |Render(t)|, AngleOpen)
    ensures ParseType(toks, st) == RenderedResult(t, st, st.pos + |Render(t)|)
    ensures DecodesTo(RenderedResult(t, st, st.pos + |Render(t)|), t)
  {
    RenderedResultDecodes(t, st, st.pos + |Render(t)|);
    ParseRendered(toks, st, t);
  }

  lemma RenderedResultDecodes(t: LangType, st: PState, end: nat)
    ensures DecodesTo(RenderedResult(t, st, end), t)
  {
    BuildDecodes(t, st.table);
  }
}
