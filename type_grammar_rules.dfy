/** The rules of the individual type parsers, stated on the tokens under the
    cursor: which keyword goes where, how a shared pointer's strength and an
    array's count are read, what an empty struct or interface is, and how a
    malformed struct field or interface method is skipped. */
module TypeGrammarRules {
  import opened Wrappers
  import opened TypeGrammar

  // ---------------------------------------------------------------------
  // Dispatch.

  /** A token that is not one of the language keywords goes to the base
      parser. */
  lemma NonKeywordGoesToBase(toks: seq<Token>, st: PState)
    requires st.pos <= |toks| && !(AtIdent(toks, st.pos) && toks[st.pos].name in Keywords)
    ensures ParseType(toks, st) == ParseBaseType(toks, st)
  {
  }

  /** An unknown identifier or a non-identifier where a type should start
      aborts the parse. */
  lemma UnknownTypeFails(toks: seq<Token>, st: PState)
    requires st.pos <= |toks|
    requires !AtIdent(toks, st.pos) || toks[st.pos].name !in Keywords + BuiltinNames
    ensures ParseType(toks, st) == Failure(UnknownType(st.pos))
  {
  }

  /** `lstr` and `ltypeid` are the shared singletons, one token long, and
      leave the table as it is. */
  lemma SingletonKeywords(toks: seq<Token>, st: PState)
    requires st.pos < |toks| && toks[st.pos] in {Ident("lstr"), Ident("ltypeid")}
    ensures ParseType(toks, st) ==
      Success(Parsed(if toks[st.pos] == Ident("lstr") then LangString else LangTypeId, st.(pos := st.pos + 1)))
  {
  }

  // ---------------------------------------------------------------------
  // Pointers and arrays: `keyword < T ...`.

  /** `keyword <` under the cursor, then an element type that parsed to
      `er`, leaving the parser in `s3`. */
  predicate ElementParsed(toks: seq<Token>, st: PState, keyword: string, er: TypeRef, s3: PState) {
    st.pos + 1 < |toks| && toks[st.pos] == Ident(keyword) && toks[st.pos + 1] == Punct(AngleOpen)
    && ParseType(toks, st.(pos := st.pos + 2)) == Success(Parsed(er, s3))
  }

  /** The letter that marks a strong (`s`) or weak (`w`) shared pointer. */
  function StrengthLetter(strong: bool): string {
    if strong then "s" else "w"
  }

  /** `, s >` makes a strong pointer and `, w >` a weak one; the pointer is
      appended to the table and referred to. */
  lemma SharedPointerWithStrength(toks: seq<Token>, st: PState, er: TypeRef, s3: PState, strong: bool)
    requires ElementParsed(toks, st, "lshared_ptr", er, s3)
    requires s3.pos + 2 < |toks| && toks[s3.pos] == Punct(Comma) && toks[s3.pos + 1] == Ident(StrengthLetter(strong))
    requires toks[s3.pos + 2] == Punct(AngleClose)
    ensures ParseSharedPointer(toks, st) ==
      Success(Parsed(Entry(|s3.table|), s3.(pos := s3.pos + 3, table := s3.table + [SharedPointer(strong, er)])))
  {
    assert ConsumeToken(toks, s3, Comma) == s3.(pos := s3.pos + 1);
    assert "w" != "s";
  }

  /** Any other strength letter aborts the parse. */
  lemma SharedPointerUnknownStrength(toks: seq<Token>, st: PState, er: TypeRef, s3: PState, c: string)
    requires ElementParsed(toks, st, "lshared_ptr", er, s3)
    requires s3.pos + 1 < |toks| && toks[s3.pos] == Punct(Comma) && toks[s3.pos + 1] == Ident(c)
    requires c != "s" && c != "w"
    ensures ParseSharedPointer(toks, st) == Failure(ExpectedStrength)
  {
    assert ConsumeToken(toks, s3, Comma) == s3.(pos := s3.pos + 1);
  }

  /** No strength at all: an error is recorded and the pointer is strong. */
  lemma SharedPointerMissingStrength(toks: seq<Token>, st: PState, er: TypeRef, s3: PState)
    requires ElementParsed(toks, st, "lshared_ptr", er, s3)
    requires AtPunct(toks, s3.pos, Comma) && !AtIdent(toks, s3.pos + 1)
    ensures ParseSharedPointer(toks, st).Success?
    ensures ParseSharedPointer(toks, st).value.value == Entry(|s3.table|)
    ensures ParseSharedPointer(toks, st).value.st.table == s3.table + [SharedPointer(true, er)]
    ensures s3.errors + [UnexpectedToken(s3.pos + 1, ExpectIdentifier)] <= ParseSharedPointer(toks, st).value.st.errors
  {
    var s4 := s3.(pos := s3.pos + 1);
    assert ConsumeToken(toks, s3, Comma) == s4;
    assert ConsumeIdentifier(toks, s4) == (None, Unexpected(s4, ExpectIdentifier));
  }

  /** `lunique_ptr<T>`: a unique pointer to the element. */
  lemma UniquePointerRule(toks: seq<Token>, st: PState, er: TypeRef, s3: PState)
    requires ElementParsed(toks, st, "lunique_ptr", er, s3) && AtPunct(toks, s3.pos, AngleClose)
    ensures ParseUniquePointer(toks, st) ==
      Success(Parsed(Entry(|s3.table|), s3.(pos := s3.pos + 1, table := s3.table + [UniquePointer(er)])))
  {
  }

  /** `larray<T>`: an array without a fixed count. */
  lemma ArrayWithoutCount(toks: seq<Token>, st: PState, er: TypeRef, s3: PState)
    requires ElementParsed(toks, st, "larray", er, s3) && AtPunct(toks, s3.pos, AngleClose)
    ensures ParseArray(toks, st) ==
      Success(Parsed(Entry(|s3.table|), s3.(pos := s3.pos + 1, table := s3.table + [Array(er, None)])))
  {
  }

  /** `larray<T, n>`: an array of fixed count `n`. */
  lemma ArrayWithCount(toks: seq<Token>, st: PState, er: TypeRef, s3: PState, n: int)
    requires ElementParsed(toks, st, "larray", er, s3)
    requires s3.pos + 2 < |toks| && toks[s3.pos] == Punct(Comma) && toks[s3.pos + 1] == IntLit(n)
    requires toks[s3.pos + 2] == Punct(AngleClose)
    ensures ParseArray(toks, st) ==
      Success(Parsed(Entry(|s3.table|), s3.(pos := s3.pos + 3, table := s3.table + [Array(er, Some(n))])))
  {
    assert ConsumeToken(toks, s3, Comma) == s3.(pos := s3.pos + 1);
  }

  /** `larray<T, ` without a number: an error is recorded and the count
      is 0. */
  lemma ArrayMissingCount(toks: seq<Token>, st: PState, er: TypeRef, s3: PState)
    requires ElementParsed(toks, st, "larray", er, s3)
    requires AtPunct(toks, s3.pos, Comma) && !(s3.pos + 1 < |toks| && toks[s3.pos + 1].IntLit?)
    ensures ParseArray(toks, st).Success?
    ensures ParseArray(toks, st).value.value == Entry(|s3.table|)
    ensures ParseArray(toks, st).value.st.table == s3.table + [Array(er, Some(0))]
    ensures s3.errors + [UnexpectedToken(s3.pos + 1, ExpectInt)] <= ParseArray(toks, st).value.st.errors
  {
    var s4 := s3.(pos := s3.pos + 1);
    assert ConsumeToken(toks, s3, Comma) == s4;
    assert ConsumeInt64(toks, s4) == (None, Unexpected(s4, ExpectInt));
  }

  // ---------------------------------------------------------------------
  // Structs and interfaces.

  /** `lstruct` not followed by `<` is the empty-struct singleton: one
      token, nothing added to the table. */
  lemma StructWithoutMembers(toks: seq<Token>, st: PState)
    requires st.pos < |toks| && toks[st.pos] == Ident("lstruct") && !AtPunct(toks, st.pos + 1, AngleOpen)
    ensures ParseStruct(toks, st) == Success(Parsed(EmptyStruct, st.(pos := st.pos + 1)))
  {
  }

  /** `linterface` not followed by `<` is the empty-interface singleton. */
  lemma InterfaceWithoutMembers(toks: seq<Token>, st: PState)
    requires st.pos < |toks| && toks[st.pos] == Ident("linterface") && !AtPunct(toks, st.pos + 1, AngleOpen)
    ensures ParseInterface(toks, st) == Success(Parsed(EmptyInterface, st.(pos := st.pos + 1)))
  {
  }

  /** Where a malformed entry leaves the parser: one error at the entry,
      the cursor just past the next comma (or at the end), and the table as
      it was. */
  predicate SkippedEntry(toks: seq<Token>, st: PState, st2: PState) {
    st2.errors == st.errors + [UnexpectedToken(st.pos, ExpectIdentifier)] && st2.table == st.table
    && st.pos <= st2.pos <= |toks|
    && (st2.pos == |toks| || (st.pos < st2.pos && toks[st2.pos - 1] == Punct(Comma)))
    && forall i :: st.pos <= i < st2.pos - 1 ==> toks[i] != Punct(Comma)
  }

  /** A struct field that does not start with a name adds no field and is
      skipped through the next comma. */
  lemma MalformedFieldSkipped(toks: seq<Token>, st: PState)
    requires st.pos <= |toks| && !AtIdent(toks, st.pos)
    ensures ParseStructField(toks, st).Success? && ParseStructField(toks, st).value.value == []
    ensures SkippedEntry(toks, st, ParseStructField(toks, st).value.st)
  {
  }

  /** An interface method that does not start with a name adds no method
      and is skipped through the next comma. */
  lemma MalformedMethodSkipped(toks: seq<Token>, st: PState)
    requires st.pos <= |toks| && !AtIdent(toks, st.pos)
    ensures ParseInterfaceMethod(toks, st).Success? && ParseInterfaceMethod(toks, st).value.value == []
    ensures SkippedEntry(toks, st, ParseInterfaceMethod(toks, st).value.st)
  {
  }

  /** A field that starts with a name adds exactly that field. */
  lemma NamedFieldAdded(toks: seq<Token>, st: PState)
    requires st.pos < |toks| && toks[st.pos].Ident?
    ensures ParseStructField(toks, st).Success? ==>
      |ParseStructField(toks, st).value.value| == 1 && ParseStructField(toks, st).value.value[0].name == toks[st.pos].name
  {
  }

  // ---------------------------------------------------------------------
  // `lstr` and `ltypeid` as the source writes them.

  /** `ParseType` as written: the `lstr` and `ltypeid` branches return the
      singleton without consuming the keyword. */
  function ParseTypeAsWritten(toks: seq<Token>, st: PState): (r: Result<Parsed<TypeRef>, Fatal>)
    requires st.pos <= |toks|
    ensures r.Success? ==> Extends(st, r.value.st, |toks|)
  {
    if AtIdent(toks, st.pos) && toks[st.pos].name in Keywords then
      var name := toks[st.pos].name;
      if name == "lshared_ptr" then ParseSharedPointer(toks, st)
      else if name == "lunique_ptr" then ParseUniquePointer(toks, st)
      else if name == "lstr" then Success(Parsed(LangString, st))
      else if name == "larray" then ParseArray(toks, st)
      else if name == "lstruct" then ParseStruct(toks, st)
      else if name == "linterface" then ParseInterface(toks, st)
      else Success(Parsed(LangTypeId, st))
    else ParseBaseType(toks, st)
  }

  /** As written, `lstr` and `ltypeid` leave the cursor on the keyword, so
      whatever follows meets the keyword again: the serialization `lstr`
      does not read back as one token. */
  lemma SingletonNotConsumedAsWritten(toks: seq<Token>, st: PState)
    requires st.pos < |toks| && toks[st.pos] in {Ident("lstr"), Ident("ltypeid")}
    ensures ParseTypeAsWritten(toks, st).Success?
    ensures ParseTypeAsWritten(toks, st).value.st.pos == st.pos
    ensures ParseTypeAsWritten(toks, st).value.st.pos != ParseType(toks, st).value.st.pos
  {
  }

  /** Only the two singleton branches differ. */
  lemma AsWrittenDiffersOnlyOnSingletons(toks: seq<Token>, st: PState)
    requires st.pos <= |toks|
    requires !(st.pos < |toks| && toks[st.pos] in {Ident("lstr"), Ident("ltypeid")})
    ensures ParseTypeAsWritten(toks, st) == ParseType(toks, st)
  {
  }
}
