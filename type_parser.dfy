/** The language's IR type parser as the program runs it: a parser object
    that advances a shared scanner cursor, fills struct and interface
    builders field by field, and appends the types it builds to the
    program's type table. Every method is proved to do exactly what the
    grammar in `TypeGrammar` says. */
module TypeParser {
  import opened Wrappers
  import opened TypeGrammar

  /** The method returned what the grammar function returns, and the parser
      is left in the state the grammar function describes. */
  predicate Agrees<T(==)>(r: Result<T, Fatal>, spec: Result<Parsed<T>, Fatal>, st: PState) {
    match spec
    case Success(parsed) => r == Success(parsed.value) && st == parsed.st
    case Failure(e) => r == Failure(e)
  }

  /** `ir_ext::StructBuilder`: the fields added so far, in order. */
  class StructBuilder {
    var fields: seq<Field>

    constructor ()
      ensures fields == []
    {
      fields := [];
    }

    method AddField(name: string, fieldType: TypeRef)
      modifies this
      ensures fields == old(fields) + [Field(name, fieldType)]
    {
      fields := fields + [Field(name, fieldType)];
    }
  }

  /** `ir_ext::InterfaceBuilder`: the methods added so far, in order. */
  class InterfaceBuilder {
    var methods: seq<Method>

    constructor ()
      ensures methods == []
    {
      methods := [];
    }

    method AddMethod(name: string, parameters: seq<TypeRef>, results: seq<TypeRef>)
      modifies this
      ensures methods == old(methods) + [Method(name, parameters, results)]
    {
      methods := methods + [Method(name, parameters, results)];
    }
  }

  class TypeParser {
    /** The scanned input. */
    const toks: seq<Token>
    /** The scanner's cursor and the errors it has recorded. */
    var pos: nat
    var errors: seq<ScanError>
    /** `program()->type_table()`. */
    var table: seq<TypeEntry>

    function State(): PState
      reads this
    {
      PState(pos, errors, table)
    }

    /** A parser at the start of `toks`, adding to a program whose type
        table already holds `table`. */
    constructor (toks: seq<Token>, table: seq<TypeEntry>)
      ensures this.toks == toks && State() == PState(0, [], table)
    {
      this.toks := toks;
      pos := 0;
      errors := [];
      this.table := table;
    }

    // -------------------------------------------------------------------
    // The scanner calls the parser makes.

    method ConsumeIdentifier() returns (r: Option<string>)
      requires pos <= |toks|
      modifies this
      ensures (r, State()) == TypeGrammar.ConsumeIdentifier(toks, old(State()))
    {
      if pos < |toks| && toks[pos].Ident? {
        r := Some(toks[pos].name);
        pos := pos + 1;
      } else {
        r := None;
        errors := errors + [UnexpectedToken(pos, ExpectIdentifier)];
      }
    }

    method ConsumeToken(kind: PunctKind)
      requires pos <= |toks|
      modifies this
      ensures State() == TypeGrammar.ConsumeToken(toks, old(State()), kind)
    {
      if pos < |toks| && toks[pos] == Punct(kind) {
        pos := pos + 1;
      } else {
        errors := errors + [UnexpectedToken(pos, ExpectPunct(kind))];
      }
    }

    method ConsumeInt64() returns (r: Option<int>)
      requires pos <= |toks|
      modifies this
      ensures (r, State()) == TypeGrammar.ConsumeInt64(toks, old(State()))
    {
      if pos < |toks| && toks[pos].IntLit? {
        r := Some(toks[pos].value);
        pos := pos + 1;
      } else {
        r := None;
        errors := errors + [UnexpectedToken(pos, ExpectInt)];
      }
    }

    /** `AddErrorForUnexpectedToken({kIdentifier})` followed by
        `SkipPastTokenSequence({kComma})`. */
    method SkipMalformedEntry()
      requires pos <= |toks|
      modifies this
      ensures State() == SkipPastComma(toks, Unexpected(old(State()), ExpectIdentifier))
    {
      errors := errors + [UnexpectedToken(pos, ExpectIdentifier)];
      ghost var skipped := SkipPastComma(toks, State());
      while pos < |toks| && toks[pos] != Punct(Comma)
        invariant pos <= |toks|
        invariant SkipPastComma(toks, State()) == skipped
        decreases |toks| - pos
      {
        pos := pos + 1;
      }
      if pos < |toks| {
        pos := pos + 1;
      }
    }

    /** The base IR type parser's `ParseType`. */
    method ParseBaseType() returns (r: Result<TypeRef, Fatal>)
      requires pos <= |toks|
      modifies this
      ensures Agrees(r, TypeGrammar.ParseBaseType(toks, old(State())), State())
    {
      if pos < |toks| && toks[pos].Ident? && toks[pos].name in BuiltinNames {
        r := Success(Builtin(toks[pos].name));
        pos := pos + 1;
      } else {
        r := Failure(UnknownType(pos));
      }
    }

    /** `program()->type_table().AddType(...)`, returning the added type. */
    method AddType(entry: TypeEntry) returns (r: TypeRef)
      modifies this
      ensures Parsed(r, State()) == TypeGrammar.AddType(old(State()), entry)
    {
      r := Entry(|table|);
      table := table + [entry];
    }

    // -------------------------------------------------------------------
    // The parser.

    method ParseType() returns (r: Result<TypeRef, Fatal>)
      requires pos <= |toks|
      modifies this
      decreases |toks| - pos, 3
      ensures Agrees(r, TypeGrammar.ParseType(toks, old(State())), State())
    {
      if pos < |toks| && toks[pos].Ident? {
        var name := toks[pos].name;
        if name == "lshared_ptr" {
          r := ParseSharedPointer();
          return;
        } else if name == "lunique_ptr" {
          r := ParseUniquePointer();
          return;
        } else if name == "lstr" {
          var _ := ConsumeIdentifier();
          return Success(LangString);
        } else if name == "larray" {
          r := ParseArray();
          return;
        } else if name == "lstruct" {
          r := ParseStruct();
          return;
        } else if name == "linterface" {
          r := ParseInterface();
          return;
        } else if name == "ltypeid" {
          var _ := ConsumeIdentifier();
          return Success(LangTypeId);
        }
      }
      r := ParseBaseType();
    }

    method ParseSharedPointer() returns (r: Result<TypeRef, Fatal>)
      requires pos <= |toks|
      modifies this
      decreases |toks| - pos, 2
      ensures Agrees(r, TypeGrammar.ParseSharedPointer(toks, old(State())), State())
    {
      var keyword := ConsumeIdentifier();
      if keyword != Some("lshared_ptr") {
        return Failure(ExpectedKeyword("lshared_ptr"));
      }
      ConsumeToken(AngleOpen);
      var element := ParseType();
      if element.Failure? {
        return Failure(element.error);
      }
      ConsumeToken(Comma);
      var strength := ConsumeIdentifier();
      var c := if strength.Some? then strength.value else "s";
      if c != "s" && c != "w" {
        return Failure(ExpectedStrength);
      }
      var isStrong := c == "s";
      ConsumeToken(AngleClose);
      var pointer := AddType(SharedPointer(isStrong, element.value));
      r := Success(pointer);
    }

    method ParseUniquePointer() returns (r: Result<TypeRef, Fatal>)
      requires pos <= |toks|
      modifies this
      decreases |toks| - pos, 2
      ensures Agrees(r, TypeGrammar.ParseUniquePointer(toks, old(State())), State())
    {
      var keyword := ConsumeIdentifier();
      if keyword != Some("lunique_ptr") {
        return Failure(ExpectedKeyword("lunique_ptr"));
      }
      ConsumeToken(AngleOpen);
      var element := ParseType();
      if element.Failure? {
        return Failure(element.error);
      }
      ConsumeToken(AngleClose);
      var pointer := AddType(UniquePointer(element.value));
      r := Success(pointer);
    }

    method ParseArray() returns (r: Result<TypeRef, Fatal>)
      requires pos <= |toks|
      modifies this
      decreases |toks| - pos, 2
      ensures Agrees(r, TypeGrammar.ParseArray(toks, old(State())), State())
    {
      var keyword := ConsumeIdentifier();
      if keyword != Some("larray") {
        return Failure(ExpectedKeyword("larray"));
      }
      ConsumeToken(AngleOpen);
      var element := ParseType();
      if element.Failure? {
        return Failure(element.error);
      }
      var fixedCount: Option<int> := None;
      if pos < |toks| && toks[pos] == Punct(Comma) {
        ConsumeToken(Comma);
        var count := ConsumeInt64();
        fixedCount := Some(if count.Some? then count.value else 0);
      }
      ConsumeToken(AngleClose);
      var arrayRef := AddType(Array(element.value, fixedCount));
      r := Success(arrayRef);
    }

    method ParseStruct() returns (r: Result<TypeRef, Fatal>)
      requires pos <= |toks|
      modifies this
      decreases |toks| - pos, 2
      ensures Agrees(r, TypeGrammar.ParseStruct(toks, old(State())), State())
    {
      var keyword := ConsumeIdentifier();
      if keyword != Some("lstruct") {
        return Failure(ExpectedKeyword("lstruct"));
      }
      if !(pos < |toks| && toks[pos] == Punct(AngleOpen)) {
        return Success(EmptyStruct);
      }
      var builder := new StructBuilder();
      ConsumeToken(AngleOpen);
      ghost var fieldStart := State();
      var first := ParseStructField(builder);
      if first.Failure? {
        return Failure(first.error);
      }
      ghost var firstSpec := TypeGrammar.ParseStructField(toks, fieldStart);
      assert builder.fields == firstSpec.value.value;
      ghost var loopStart, startFields := State(), builder.fields;
      while pos < |toks| && toks[pos] == Punct(Comma)
        invariant old(pos) <= pos <= |toks|
        invariant StructFieldsLoop(toks, State(), builder.fields) == StructFieldsLoop(toks, loopStart, startFields)
        decreases |toks| - pos
      {
        ConsumeToken(Comma);
        var next := ParseStructField(builder);
        if next.Failure? {
          return Failure(next.error);
        }
      }
      assert StructFieldsLoop(toks, loopStart, startFields) == Success(Parsed(builder.fields, State()));
      ConsumeToken(AngleClose);
      var structRef := AddType(Struct(builder.fields));
      r := Success(structRef);
    }

    method ParseStructField(builder: StructBuilder) returns (r: Result<(), Fatal>)
      requires pos <= |toks|
      modifies this, builder
      decreases |toks| - pos, 1
      ensures var spec := TypeGrammar.ParseStructField(toks, old(State()));
        && (r.Success? <==> spec.Success?)
        && (spec.Failure? ==> r.error == spec.error)
        && (spec.Success? ==> State() == spec.value.st && builder.fields == old(builder.fields) + spec.value.value)
    {
      if !(pos < |toks| && toks[pos].Ident?) {
        SkipMalformedEntry();
        return Success(());
      }
      var name := ConsumeIdentifier();
      ConsumeToken(Colon);
      var fieldType := ParseType();
      if fieldType.Failure? {
        return Failure(fieldType.error);
      }
      builder.AddField(name.value, fieldType.value);
      r := Success(());
    }

    method ParseInterface() returns (r: Result<TypeRef, Fatal>)
      requires pos <= |toks|
      modifies this
      decreases |toks| - pos, 2
      ensures Agrees(r, TypeGrammar.ParseInterface(toks, old(State())), State())
    {
      var keyword := ConsumeIdentifier();
      if keyword != Some("linterface") {
        return Failure(ExpectedKeyword("linterface"));
      }
      if !(pos < |toks| && toks[pos] == Punct(AngleOpen)) {
        return Success(EmptyInterface);
      }
      var builder := new InterfaceBuilder();
      ConsumeToken(AngleOpen);
      ghost var fieldStart := State();
      var first := ParseInterfaceMethod(builder);
      if first.Failure? {
        return Failure(first.error);
      }
      ghost var firstSpec := TypeGrammar.ParseInterfaceMethod(toks, fieldStart);
      assert builder.methods == firstSpec.value.value;
      ghost var loopStart, startMethods := State(), builder.methods;
      while pos < |toks| && toks[pos] == Punct(Comma)
        invariant old(pos) <= pos <= |toks|
        invariant InterfaceMethodsLoop(toks, State(), builder.methods) == InterfaceMethodsLoop(toks, loopStart, startMethods)
        decreases |toks| - pos
      {
        ConsumeToken(Comma);
        var next := ParseInterfaceMethod(builder);
        if next.Failure? {
          return Failure(next.error);
        }
      }
      assert InterfaceMethodsLoop(toks, loopStart, startMethods) == Success(Parsed(builder.methods, State()));
      ConsumeToken(AngleClose);
      var iface := AddType(Interface(builder.methods));
      r := Success(iface);
    }

    method ParseInterfaceMethod(builder: InterfaceBuilder) returns (r: Result<(), Fatal>)
      requires pos <= |toks|
      modifies this, builder
      decreases |toks| - pos, 1
      ensures var spec := TypeGrammar.ParseInterfaceMethod(toks, old(State()));
        && (r.Success? <==> spec.Success?)
        && (spec.Failure? ==> r.error == spec.error)
        && (spec.Success? ==> State() == spec.value.st && builder.methods == old(builder.methods) + spec.value.value)
    {
      if !(pos < |toks| && toks[pos].Ident?) {
        SkipMalformedEntry();
        return Success(());
      }
      var name := ConsumeIdentifier();
      ConsumeToken(Colon);
      ConsumeToken(ParenOpen);
      var parameters: seq<TypeRef> := [];
      if !(pos < |toks| && toks[pos] == Punct(ParenClose)) {
        var parsed := ParseTypes();
        if parsed.Failure? {
          return Failure(parsed.error);
        }
        parameters := parsed.value;
      }
      ConsumeToken(ParenClose);
      ConsumeToken(Arrow);
      ConsumeToken(ParenOpen);
      var results: seq<TypeRef> := [];
      if !(pos < |toks| && toks[pos] == Punct(ParenClose)) {
        var parsed := ParseTypes();
        if parsed.Failure? {
          return Failure(parsed.error);
        }
        results := parsed.value;
      }
      ConsumeToken(ParenClose);
      builder.AddMethod(name.value, parameters, results);
      r := Success(());
    }

    /** The base parser's `ParseTypes`, reading each type with the language's
        `ParseType`. */
    method ParseTypes() returns (r: Result<seq<TypeRef>, Fatal>)
      requires pos <= |toks|
      modifies this
      decreases |toks| - pos, 4
      ensures Agrees(r, TypeGrammar.ParseTypes(toks, old(State())), State())
    {
      var first := ParseType();
      if first.Failure? {
        return Failure(first.error);
      }
      var types := [first.value];
      ghost var loopStart := State();
      while pos < |toks| && toks[pos] == Punct(Comma)
        invariant old(pos) <= pos <= |toks|
        invariant TypesLoop(toks, State(), types) == TypesLoop(toks, loopStart, [first.value])
        decreases |toks| - pos
      {
        ConsumeToken(Comma);
        var next := ParseType();
        if next.Failure? {
          return Failure(next.error);
        }
        types := types + [next.value];
      }
      r := Success(types);
    }
  }
}
