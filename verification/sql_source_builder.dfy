/**
 * SqlSourceBuilder: turns the SQL text of a statement into a static SQL
 * source.  Every `#{...}` placeholder becomes `?`, and its content is
 * parsed into one parameter mapping, in placeholder order.  Whitespace may
 * first be shrunk to single spaces.
 */
module SqlSourceBuilders {
  import opened Lang
  import opened Text
  import opened TokenParsers
  import opened Mapping

  /** The delimiters of a StringTokenizer built without a delimiter argument. */
  const Whitespace: set<char> := {' ', '\t', '\n', '\r', 12 as char}

  /** The attribute names a placeholder may carry besides its property. */
  const ParameterProperties: set<string> :=
    {"javaType", "jdbcType", "mode", "numericScale", "resultMap", "typeHandler", "jdbcTypeName"}

  /** The SQL text with its placeholders replaced, and one mapping per placeholder. */
  datatype StaticSqlSource = StaticSqlSource(sql: string, parameterMappings: seq<ParameterMapping>)

  /**
   * What the builder consults in the configuration.  ParameterExpression,
   * BaseBuilder's alias resolution, the type-handler registry and
   * Integer.valueOf are not part of this model and appear as functions.
   * `parameterExpression` gives the attribute entries of a placeholder's
   * content in the iteration order of the map it builds, or the exception
   * it throws.  A resolver gives None for an alias it cannot resolve,
   * which BaseBuilder reports as a BuilderException; `defaultTypeHandler`
   * is the registry's handler for a java type and JDBC type, if any.
   */
  datatype BuilderContext = BuilderContext(
    parameterExpression: string -> Result<seq<(string, string)>>,
    hasTypeHandler: string -> bool,
    isMapType: string -> bool,
    classHasGetter: (string, string) -> bool,
    classGetterType: (string, string) -> string,
    resolveClass: string -> Option<string>,
    resolveJdbcType: string -> Option<string>,
    resolveParameterMode: string -> Option<ParameterMode>,
    parseInt: string -> Option<int>,
    resolveTypeHandler: (string, string) -> Option<string>,
    defaultTypeHandler: (string, Option<string>) -> Option<string>)

  /** The java type a ResultSet-typed (CURSOR) parameter carries. */
  const ResultSetType := "java.sql.ResultSet"

  /** The meta object over the additional parameters (the dynamic context's bindings). */
  datatype MetaParameters = MetaParameters(hasGetter: Option<string> -> bool, getterType: Option<string> -> string)

  /** A mapping under construction, with the type-handler alias seen so far. */
  datatype Draft = Draft(mapping: ParameterMapping, typeHandlerAlias: Option<string>)

  // ---------------------------------------------------------------------
  // removeExtraWhitespaces
  // ---------------------------------------------------------------------

  /** The whitespace-delimited words of `s`, separated by single spaces. */
  function Shrunk(s: string): string {
    Join(Tokens(s, Whitespace), " ")
  }

  /** removeExtraWhitespaces: appends each token, and a space whenever another token follows. */
  method RemoveExtraWhitespaces(original: string) returns (r: string)
    ensures r == Shrunk(original)
  {
    var tokenizer := new StringTokenizer(original, Whitespace);
    var builder := "";
    ghost var done: seq<string> := [];
    var hasMoreTokens := tokenizer.HasMoreTokens();
    while hasMoreTokens
      invariant tokenizer.Valid() && tokenizer.str == original && tokenizer.delims == Whitespace
      invariant done + tokenizer.Remaining() == Tokens(original, Whitespace)
      invariant hasMoreTokens <==> tokenizer.Remaining() != []
      invariant builder == Shrinking(done, hasMoreTokens)
      decreases |tokenizer.Remaining()|
    {
      ghost var before := tokenizer.Remaining();
      var token := tokenizer.NextToken();
      AppendAssoc(done, [token.value], tokenizer.Remaining());
      builder := builder + token.value;
      hasMoreTokens := tokenizer.HasMoreTokens();
      if hasMoreTokens {
        builder := builder + " ";
      }
      ShrinkStep(done, token.value, hasMoreTokens);
      done := done + [token.value];
    }
    assert done == Tokens(original, Whitespace);
    r := builder;
  }

  /** The builder after the words `done`, with the separator owed when more words follow. */
  function Shrinking(done: seq<string>, more: bool): string {
    Join(done, " ") + (if done != [] && more then " " else "")
  }

  /** One more word for the builder: the word, then a separator if more follow. */
  lemma {:induction false} ShrinkStep(done: seq<string>, token: string, more: bool)
    ensures Shrinking(done, true) + token + (if more then " " else "") == Shrinking(done + [token], more)
  {
    JoinSnoc(done, token, " ");
  }

  /** Shrinking keeps the words, in order. */
  lemma {:induction false} ShrunkKeepsWords(s: string)
    ensures Tokens(Shrunk(s), Whitespace) == Tokens(s, Whitespace)
  {
    TokensAreTokens(s, Whitespace);
    TokensOfJoin(Tokens(s, Whitespace), ' ', Whitespace);
  }

  /** Shrinking twice is shrinking once. */
  lemma {:induction false} ShrunkIdempotent(s: string)
    ensures Shrunk(Shrunk(s)) == Shrunk(s)
  {
    ShrunkKeepsWords(s);
  }

  /** The shrunk text neither starts nor ends with a space and never has two spaces in a row. */
  lemma {:induction false} ShrunkSpacing(s: string)
    ensures var t := Shrunk(s);
      (|t| > 0 ==> t[0] != ' ' && t[|t| - 1] != ' ') &&
      (forall i :: 0 <= i < |t| - 1 ==> !(t[i] == ' ' && t[i + 1] == ' '))
  {
    var ts := Tokens(s, Whitespace);
    TokensAreTokens(s, Whitespace);
    assert IsTokenList(ts, {' '}) by {
      forall i, j | 0 <= i < |ts| && 0 <= j < |ts[i]|
        ensures ts[i][j] !in {' '}
      {
        assert ts[i][j] !in Whitespace;
      }
    }
    JoinSpacing(ts);
  }

  // ---------------------------------------------------------------------
  // buildParameterMapping
  // ---------------------------------------------------------------------

  /** parseParameterMapping: a BuilderException passes through, any other exception is wrapped in one. */
  function ParseParameterMapping(ctx: BuilderContext, content: string): (r: Result<seq<(string, string)>>)
    ensures r.Failure? <==> ctx.parameterExpression(content).Failure?
    ensures r.Failure? ==> r.error == BuilderException
    ensures r.Success? ==> r == ctx.parameterExpression(content)
  {
    match ctx.parameterExpression(content)
    case Success(entries) => Success(entries)
    case Failure(_) => Failure(BuilderException)
  }

  /** The value of the entry named `name`, taking the last one if several are named so. */
  function ValueOf(entries: seq<(string, string)>, name: string): (v: Option<string>)
    ensures v.Some? <==> exists i :: 0 <= i < |entries| && entries[i].0 == name
    ensures v.Some? ==> exists i :: 0 <= i < |entries| && entries[i] == (name, v.value)
    decreases |entries|
  {
    if entries == [] then None
    else
      var last := entries[|entries| - 1];
      if last.0 == name then Some(last.1) else
        var v := ValueOf(entries[..|entries| - 1], name);
        assert forall i :: 0 <= i < |entries| - 1 ==> entries[..|entries| - 1][i] == entries[i];
        v
  }

  /**
   * The inferred property type: the bindings' getter type, the parameter
   * type itself when it has a type handler, ResultSet for a CURSOR,
   * Object for a missing property or a Map parameter, else the class's
   * getter type or Object.
   */
  function PropertyType(ctx: BuilderContext, meta: MetaParameters, parameterType: string,
                        property: Option<string>, jdbcType: Option<string>): string
  {
    if meta.hasGetter(property) then meta.getterType(property)
    else if ctx.hasTypeHandler(parameterType) then parameterType
    else if jdbcType == Some("CURSOR") then ResultSetType
    else if property.None? || ctx.isMapType(parameterType) then "java.lang.Object"
    else if ctx.classHasGetter(parameterType, property.value) then ctx.classGetterType(parameterType, property.value)
    else "java.lang.Object"
  }

  /** A fresh ParameterMapping.Builder: mode IN, the inferred type, nothing else set. */
  function InitialDraft(property: Option<string>, propertyType: string): Draft {
    Draft(ParameterMapping(if property.Some? then property.value else "", In, propertyType, None, None, None, None, None), None)
  }

  /**
   * Whether an attribute entry is accepted: a listed name or `property`,
   * with a scale that parses and a java type, JDBC type or mode alias that
   * resolves.
   */
  predicate Accepted(ctx: BuilderContext, entry: (string, string)) {
    && (entry.0 in ParameterProperties || entry.0 == "property")
    && (entry.0 == "numericScale" ==> ctx.parseInt(entry.1).Some?)
    && (entry.0 == "javaType" ==> ctx.resolveClass(entry.1).Some?)
    && (entry.0 == "jdbcType" ==> ctx.resolveJdbcType(entry.1).Some?)
    && (entry.0 == "mode" ==> ctx.resolveParameterMode(entry.1).Some?)
  }

  /**
   * What one accepted attribute changes: a javaType or jdbcType its
   * resolved alias, a resultMap or typeHandler its value; the property and
   * the handler itself stay as they were.
   */
  predicate FieldsAfter(ctx: BuilderContext, entry: (string, string), d: Draft, r: Draft) {
    && r.mapping.property == d.mapping.property
    && r.mapping.typeHandler == d.mapping.typeHandler
    && (if entry.0 == "javaType" then ctx.resolveClass(entry.1) == Some(r.mapping.javaType) else r.mapping.javaType == d.mapping.javaType)
    && (if entry.0 == "jdbcType" then ctx.resolveJdbcType(entry.1) == r.mapping.jdbcType else r.mapping.jdbcType == d.mapping.jdbcType)
    && r.mapping.resultMapId == (if entry.0 == "resultMap" then Some(entry.1) else d.mapping.resultMapId)
    && r.typeHandlerAlias == (if entry.0 == "typeHandler" then Some(entry.1) else d.typeHandlerAlias)
  }

  /** One iteration of the attribute loop. */
  function ApplyEntry(ctx: BuilderContext, entry: (string, string), d: Draft): (r: Result<Draft>)
    ensures r.Success? <==> Accepted(ctx, entry)
    ensures r.Failure? ==> r.error == (if entry.0 == "numericScale" then NumberFormatException else BuilderException)
    ensures r.Success? ==> FieldsAfter(ctx, entry, d, r.value)
  {
    var (name, value) := entry;
    var m := d.mapping;
    if name == "javaType" then
      match ctx.resolveClass(value)
      case None => Failure(BuilderException)
      case Some(t) => Success(d.(mapping := m.(javaType := t)))
    else if name == "jdbcType" then
      match ctx.resolveJdbcType(value)
      case None => Failure(BuilderException)
      case Some(t) => Success(d.(mapping := m.(jdbcType := Some(t))))
    else if name == "mode" then
      match ctx.resolveParameterMode(value)
      case None => Failure(BuilderException)
      case Some(mode) => Success(d.(mapping := m.(mode := mode)))
    else if name == "numericScale" then
      match ctx.parseInt(value)
      case None => Failure(NumberFormatException)
      case Some(n) => Success(d.(mapping := m.(numericScale := Some(n))))
    else if name == "resultMap" then Success(d.(mapping := m.(resultMapId := Some(value))))
    else if name == "typeHandler" then Success(d.(typeHandlerAlias := Some(value)))
    else if name == "jdbcTypeName" then Success(d.(mapping := m.(jdbcTypeName := Some(value))))
    else if name == "property" then Success(d)
    else if name == "expression" then Failure(BuilderException)
    else Failure(BuilderException)
  }

  /** The attribute loop over `entries` in order, stopping at the first exception. */
  function ApplyEntries(ctx: BuilderContext, entries: seq<(string, string)>, d: Draft): Result<Draft>
    decreases |entries|
  {
    if entries == [] then Success(d)
    else
      match ApplyEntries(ctx, entries[..|entries| - 1], d)
      case Failure(e) => Failure(e)
      case Success(d') => ApplyEntry(ctx, entries[|entries| - 1], d')
  }

  /**
   * Whether ParameterMapping.Builder.build() accepts a mapping once its
   * type handler is defaulted: a ResultSet parameter needs a result map,
   * any other parameter a type handler.
   */
  predicate Buildable(m: ParameterMapping) {
    if m.javaType == ResultSetType then m.resultMapId.Some? else m.typeHandler.Some?
  }

  /**
   * ParameterMapping.Builder.build(): a mapping without a type handler gets
   * the registry's handler for its java and JDBC types, and the result is
   * then validated.
   */
  function Build(ctx: BuilderContext, m: ParameterMapping): (r: Result<ParameterMapping>)
    ensures r.Success? <==>
      if m.javaType == ResultSetType then m.resultMapId.Some?
      else m.typeHandler.Some? || ctx.defaultTypeHandler(m.javaType, m.jdbcType).Some?
    ensures r.Success? ==> Buildable(r.value)
    ensures r.Failure? ==> r.error == IllegalStateException
    ensures r.Success? ==> r.value.(typeHandler := m.typeHandler) == m
    ensures r.Success? ==> r.value.typeHandler == (if m.typeHandler.Some? then m.typeHandler else ctx.defaultTypeHandler(m.javaType, m.jdbcType))
  {
    var withHandler := if m.typeHandler.Some? then m else m.(typeHandler := ctx.defaultTypeHandler(m.javaType, m.jdbcType));
    if Buildable(withHandler) then Success(withHandler) else Failure(IllegalStateException)
  }

  /**
   * After the loop: a typeHandler alias is resolved against the final java
   * type (an alias that does not resolve is a BuilderException), then the
   * mapping is built.
   */
  function Finish(ctx: BuilderContext, d: Draft): (r: Result<ParameterMapping>)
    ensures r.Failure? ==> r.error == (if d.typeHandlerAlias.Some? && ctx.resolveTypeHandler(d.mapping.javaType, d.typeHandlerAlias.value).None?
                                       then BuilderException else IllegalStateException)
  {
    match d.typeHandlerAlias
    case None => Build(ctx, d.mapping)
    case Some(alias) =>
      match ctx.resolveTypeHandler(d.mapping.javaType, alias)
      case None => Failure(BuilderException)
      case Some(handler) => Build(ctx, d.mapping.(typeHandler := Some(handler)))
  }

  /** What buildParameterMapping returns or throws for one placeholder's content. */
  function MappingFor(ctx: BuilderContext, meta: MetaParameters, parameterType: string, content: string): Result<ParameterMapping> {
    match ParseParameterMapping(ctx, content)
    case Failure(e) => Failure(e)
    case Success(entries) =>
      var property := ValueOf(entries, "property");
      var propertyType := PropertyType(ctx, meta, parameterType, property, ValueOf(entries, "jdbcType"));
      match ApplyEntries(ctx, entries, InitialDraft(property, propertyType))
      case Failure(e) => Failure(e)
      case Success(d) => Finish(ctx, d)
  }

  /** The loop succeeds exactly when every entry is accepted. */
  lemma {:induction false} ApplyEntriesSucceeds(ctx: BuilderContext, entries: seq<(string, string)>, d: Draft)
    ensures ApplyEntries(ctx, entries, d).Success? <==> forall i :: 0 <= i < |entries| ==> Accepted(ctx, entries[i])
    decreases |entries|
  {
    if entries != [] {
      var init := entries[..|entries| - 1];
      ApplyEntriesSucceeds(ctx, init, d);
      assert forall i :: 0 <= i < |init| ==> init[i] == entries[i];
    }
  }

  /** The loop's exception is a NumberFormatException only when some numericScale value does not parse. */
  lemma {:induction false} ApplyEntriesError(ctx: BuilderContext, entries: seq<(string, string)>, d: Draft)
    requires ApplyEntries(ctx, entries, d).Failure?
    ensures var e := ApplyEntries(ctx, entries, d).error;
      e == BuilderException ||
      (e == NumberFormatException &&
       exists i :: 0 <= i < |entries| && entries[i].0 == "numericScale" && ctx.parseInt(entries[i].1).None?)
    decreases |entries|
  {
    var init := entries[..|entries| - 1];
    if ApplyEntries(ctx, init, d).Failure? {
      ApplyEntriesError(ctx, init, d);
      assert forall i :: 0 <= i < |init| ==> init[i] == entries[i];
    }
  }

  /**
   * The loop's effect: the last javaType, jdbcType and resultMap win (each
   * resolved alias in place of the one before), the last typeHandler alias
   * is kept, and the property is never changed.
   */
  lemma {:induction false} ApplyEntriesFields(ctx: BuilderContext, entries: seq<(string, string)>, d: Draft)
    requires ApplyEntries(ctx, entries, d).Success?
    ensures var r := ApplyEntries(ctx, entries, d).value;
      && r.mapping.property == d.mapping.property
      && r.mapping.typeHandler == d.mapping.typeHandler
      && (match ValueOf(entries, "javaType")
          case Some(v) => ctx.resolveClass(v) == Some(r.mapping.javaType)
          case None => r.mapping.javaType == d.mapping.javaType)
      && (match ValueOf(entries, "jdbcType")
          case Some(v) => ctx.resolveJdbcType(v) == r.mapping.jdbcType
          case None => r.mapping.jdbcType == d.mapping.jdbcType)
      && r.mapping.resultMapId == (if ValueOf(entries, "resultMap").Some? then ValueOf(entries, "resultMap") else d.mapping.resultMapId)
      && r.typeHandlerAlias == (if ValueOf(entries, "typeHandler").Some? then ValueOf(entries, "typeHandler") else d.typeHandlerAlias)
    decreases |entries|
  {
    if entries != [] {
      var init, last := entries[..|entries| - 1], entries[|entries| - 1];
      ApplyEntriesFields(ctx, init, d);
      assert ApplyEntries(ctx, entries, d) == ApplyEntry(ctx, last, ApplyEntries(ctx, init, d).value);
      ValueOfLast(entries, "javaType");
      ValueOfLast(entries, "jdbcType");
      ValueOfLast(entries, "resultMap");
      ValueOfLast(entries, "typeHandler");
    }
  }

  /** The value of a name is the last entry's when it is so named, else the value among the entries before. */
  lemma ValueOfLast(entries: seq<(string, string)>, name: string)
    requires entries != []
    ensures ValueOf(entries, name) ==
      if entries[|entries| - 1].0 == name then Some(entries[|entries| - 1].1) else ValueOf(entries[..|entries| - 1], name)
  {
  }

  /**
   * A placeholder is mapped exactly when its content parses, every
   * attribute is accepted and the mapping the loop leaves can be finished.
   */
  lemma {:induction false} MappingAccepted(ctx: BuilderContext, meta: MetaParameters, parameterType: string, content: string)
    ensures MappingFor(ctx, meta, parameterType, content).Success? <==>
      && ctx.parameterExpression(content).Success?
      && var entries := ctx.parameterExpression(content).value;
         var property := ValueOf(entries, "property");
         var d := InitialDraft(property, PropertyType(ctx, meta, parameterType, property, ValueOf(entries, "jdbcType")));
         && (forall i :: 0 <= i < |entries| ==> Accepted(ctx, entries[i]))
         && ApplyEntries(ctx, entries, d).Success? && Finish(ctx, ApplyEntries(ctx, entries, d).value).Success?
  {
    if ctx.parameterExpression(content).Success? {
      var entries := ctx.parameterExpression(content).value;
      var property := ValueOf(entries, "property");
      ApplyEntriesSucceeds(ctx, entries, InitialDraft(property, PropertyType(ctx, meta, parameterType, property, ValueOf(entries, "jdbcType"))));
    }
  }

  /**
   * An `expression` attribute or any name outside the listed set is a
   * BuilderException, unless a numericScale value fails to parse first;
   * so is content that does not parse.
   */
  lemma {:induction false} InvalidAttributeRejected(ctx: BuilderContext, meta: MetaParameters, parameterType: string, content: string)
    requires ctx.parameterExpression(content).Failure? ||
      var entries := ctx.parameterExpression(content).value;
      (exists i :: 0 <= i < |entries| && entries[i].0 !in ParameterProperties && entries[i].0 != "property") &&
      (forall i :: 0 <= i < |entries| && entries[i].0 == "numericScale" ==> ctx.parseInt(entries[i].1).Some?)
    ensures MappingFor(ctx, meta, parameterType, content) == Failure(BuilderException)
  {
    if ctx.parameterExpression(content).Success? {
      var entries := ctx.parameterExpression(content).value;
      var property := ValueOf(entries, "property");
      var d := InitialDraft(property, PropertyType(ctx, meta, parameterType, property, ValueOf(entries, "jdbcType")));
      ApplyEntriesSucceeds(ctx, entries, d);
      ApplyEntriesError(ctx, entries, d);
    }
  }

  /**
   * A mapped placeholder has the property it names, the java type given
   * explicitly or else the inferred one, the JDBC type and result map
   * given, and the type handler its alias resolves to against that java
   * type, or else the registry's default.  It has passed build()'s check:
   * a ResultSet has a result map, anything else a type handler.
   */
  lemma {:induction false} MappingFields(ctx: BuilderContext, meta: MetaParameters, parameterType: string, content: string)
    requires MappingFor(ctx, meta, parameterType, content).Success?
    ensures ctx.parameterExpression(content).Success?
    ensures var entries := ctx.parameterExpression(content).value;
      var m := MappingFor(ctx, meta, parameterType, content).value;
      var property := ValueOf(entries, "property");
      && m.property == (if property.Some? then property.value else "")
      && (match ValueOf(entries, "javaType")
          case Some(v) => ctx.resolveClass(v) == Some(m.javaType)
          case None => m.javaType == PropertyType(ctx, meta, parameterType, property, ValueOf(entries, "jdbcType")))
      && (match ValueOf(entries, "jdbcType")
          case Some(v) => ctx.resolveJdbcType(v) == m.jdbcType
          case None => m.jdbcType.None?)
      && m.resultMapId == ValueOf(entries, "resultMap")
      && (match ValueOf(entries, "typeHandler")
          case Some(alias) => m.typeHandler.Some? && ctx.resolveTypeHandler(m.javaType, alias) == m.typeHandler
          case None => m.typeHandler == ctx.defaultTypeHandler(m.javaType, m.jdbcType))
      && Buildable(m)
  {
    var entries := ctx.parameterExpression(content).value;
    var property := ValueOf(entries, "property");
    var d := InitialDraft(property, PropertyType(ctx, meta, parameterType, property, ValueOf(entries, "jdbcType")));
    ApplyEntriesFields(ctx, entries, d);
  }

  /**
   * A CURSOR placeholder without a javaType or resultMap, whose type is
   * not otherwise inferred, is rejected by build() with an
   * IllegalStateException once its attributes are accepted and any
   * typeHandler alias resolves.
   */
  lemma {:induction false} CursorWithoutResultMapRejected(ctx: BuilderContext, meta: MetaParameters, parameterType: string, content: string)
    requires ctx.parameterExpression(content).Success?
    requires var entries := ctx.parameterExpression(content).value;
      && (forall i :: 0 <= i < |entries| ==> Accepted(ctx, entries[i]))
      && ValueOf(entries, "jdbcType") == Some("CURSOR")
      && ValueOf(entries, "javaType").None? && ValueOf(entries, "resultMap").None?
      && !meta.hasGetter(ValueOf(entries, "property")) && !ctx.hasTypeHandler(parameterType)
      && (ValueOf(entries, "typeHandler").Some? ==> ctx.resolveTypeHandler(ResultSetType, ValueOf(entries, "typeHandler").value).Some?)
    ensures MappingFor(ctx, meta, parameterType, content) == Failure(IllegalStateException)
  {
    var entries := ctx.parameterExpression(content).value;
    var property := ValueOf(entries, "property");
    var d := InitialDraft(property, PropertyType(ctx, meta, parameterType, property, ValueOf(entries, "jdbcType")));
    ApplyEntriesSucceeds(ctx, entries, d);
    ApplyEntriesFields(ctx, entries, d);
  }

  /** The mappings of the placeholder contents in order, or the first exception. */
  function MappingsFor(ctx: BuilderContext, meta: MetaParameters, parameterType: string, contents: seq<string>): (r: Result<seq<ParameterMapping>>)
    ensures r.Success? ==> |r.value| == |contents|
    ensures r.Success? ==> forall i :: 0 <= i < |contents| ==> MappingFor(ctx, meta, parameterType, contents[i]) == Success(r.value[i])
    decreases |contents|
  {
    if contents == [] then Success([])
    else
      match MappingsFor(ctx, meta, parameterType, contents[..|contents| - 1])
      case Failure(e) => Failure(e)
      case Success(ms) =>
        match MappingFor(ctx, meta, parameterType, contents[|contents| - 1])
        case Failure(e) => Failure(e)
        case Success(m) => Success(ms + [m])
  }

  /** Placeholder `k` is the first to fail, with `e`. */
  predicate FirstFailing(ctx: BuilderContext, meta: MetaParameters, parameterType: string, contents: seq<string>, k: int, e: Error) {
    && 0 <= k < |contents|
    && MappingFor(ctx, meta, parameterType, contents[k]) == Failure(e)
    && forall j :: 0 <= j < k ==> MappingFor(ctx, meta, parameterType, contents[j]).Success?
  }

  /** The exception is that of the first placeholder that fails, and every earlier one is mapped. */
  lemma {:induction false} MappingsForFirstFailure(ctx: BuilderContext, meta: MetaParameters, parameterType: string, contents: seq<string>)
    requires MappingsFor(ctx, meta, parameterType, contents).Failure?
    ensures exists k :: FirstFailing(ctx, meta, parameterType, contents, k, MappingsFor(ctx, meta, parameterType, contents).error)
    decreases |contents|
  {
    var init := contents[..|contents| - 1];
    var e := MappingsFor(ctx, meta, parameterType, contents).error;
    if MappingsFor(ctx, meta, parameterType, init).Failure? {
      assert MappingsFor(ctx, meta, parameterType, init).error == e;
      MappingsForFirstFailure(ctx, meta, parameterType, init);
      var k :| FirstFailing(ctx, meta, parameterType, init, k, e);
      assert init[k] == contents[k];
      assert forall j :: 0 <= j < k ==> init[j] == contents[j];
      assert FirstFailing(ctx, meta, parameterType, contents, k, e);
    } else {
      var k := |contents| - 1;
      assert MappingFor(ctx, meta, parameterType, contents[k]) == Failure(e);
      assert forall j :: 0 <= j < k ==> init[j] == contents[j];
      assert FirstFailing(ctx, meta, parameterType, contents, k, e);
    }
  }

  /** One more placeholder that is mapped: its mapping is appended to those before it. */
  lemma MappingsForStep(ctx: BuilderContext, meta: MetaParameters, parameterType: string, contents: seq<string>, i: nat)
    requires i < |contents| && MappingsFor(ctx, meta, parameterType, contents[..i]).Success?
    requires MappingFor(ctx, meta, parameterType, contents[i]).Success?
    ensures MappingsFor(ctx, meta, parameterType, contents[..i + 1]) ==
      Success(MappingsFor(ctx, meta, parameterType, contents[..i]).value + [MappingFor(ctx, meta, parameterType, contents[i]).value])
  {
    assert contents[..i + 1][..i] == contents[..i];
  }

  /** One more placeholder that fails: its exception ends the list. */
  lemma MappingsForStepFails(ctx: BuilderContext, meta: MetaParameters, parameterType: string, contents: seq<string>, i: nat)
    requires i < |contents| && MappingsFor(ctx, meta, parameterType, contents[..i]).Success?
    requires MappingFor(ctx, meta, parameterType, contents[i]).Failure?
    ensures MappingsFor(ctx, meta, parameterType, contents[..i + 1]) == Failure(MappingFor(ctx, meta, parameterType, contents[i]).error)
  {
    assert contents[..i + 1][..i] == contents[..i];
  }

  /** Once a prefix of the contents fails, the whole list fails with the same exception. */
  lemma {:induction false} MappingsForPrefixFails(ctx: BuilderContext, meta: MetaParameters, parameterType: string, contents: seq<string>, k: nat)
    requires k <= |contents| && MappingsFor(ctx, meta, parameterType, contents[..k]).Failure?
    ensures MappingsFor(ctx, meta, parameterType, contents) == MappingsFor(ctx, meta, parameterType, contents[..k])
    decreases |contents| - k
  {
    if k < |contents| {
      assert contents[..k + 1][..k] == contents[..k];
      MappingsForPrefixFails(ctx, meta, parameterType, contents, k + 1);
    } else {
      assert contents[..k] == contents;
    }
  }

  /**
   * ParameterMappingTokenHandler: collects one mapping per handled
   * placeholder and stands in for each with `?`.
   */
  class ParameterMappingTokenHandler {
    const ctx: BuilderContext
    const meta: MetaParameters
    const parameterType: string
    var parameterMappings: seq<ParameterMapping>

    constructor (ctx: BuilderContext, parameterType: string, meta: MetaParameters)
      ensures this.ctx == ctx && this.parameterType == parameterType && this.meta == meta
      ensures parameterMappings == []
    {
      this.ctx := ctx;
      this.parameterType := parameterType;
      this.meta := meta;
      parameterMappings := [];
    }

    /** buildParameterMapping: infers the property type, then applies the attributes in order. */
    method BuildParameterMapping(content: string) returns (r: Result<ParameterMapping>)
      ensures r == MappingFor(ctx, meta, parameterType, content)
    {
      var propertiesMap := ParseParameterMapping(ctx, content);
      if propertiesMap.Failure? {
        return Failure(propertiesMap.error);
      }
      var entries := propertiesMap.value;
      var property := ValueOf(entries, "property");
      var propertyType := PropertyType(ctx, meta, parameterType, property, ValueOf(entries, "jdbcType"));
      var builder := InitialDraft(property, propertyType);
      ghost var start := builder;
      var i := 0;
      while i < |entries|
        invariant 0 <= i <= |entries|
        invariant ApplyEntries(ctx, entries[..i], start) == Success(builder)
      {
        assert entries[..i + 1][..i] == entries[..i];
        var step := ApplyEntry(ctx, entries[i], builder);
        if step.Failure? {
          MappingsPrefixStops(entries, i + 1, start);
          return Failure(step.error);
        }
        builder := step.value;
        i := i + 1;
      }
      assert entries[..i] == entries;
      r := Finish(ctx, builder);
    }

    /** A failing prefix of the attribute loop fails the whole loop. */
    lemma {:induction false} MappingsPrefixStops(entries: seq<(string, string)>, k: nat, d: Draft)
      requires k <= |entries| && ApplyEntries(ctx, entries[..k], d).Failure?
      ensures ApplyEntries(ctx, entries, d) == ApplyEntries(ctx, entries[..k], d)
      decreases |entries| - k
    {
      if k < |entries| {
        assert entries[..k + 1][..k] == entries[..k];
        MappingsPrefixStops(entries, k + 1, d);
      } else {
        assert entries[..k] == entries;
      }
    }

    /** handleToken: appends the placeholder's mapping and returns `?`; an exception leaves the list as it was. */
    method HandleToken(content: string) returns (r: Result<string>)
      modifies this
      ensures MappingFor(ctx, meta, parameterType, content).Success? ==>
        r == Success("?") && parameterMappings == old(parameterMappings) + [MappingFor(ctx, meta, parameterType, content).value]
      ensures MappingFor(ctx, meta, parameterType, content).Failure? ==>
        r == Failure(MappingFor(ctx, meta, parameterType, content).error) && parameterMappings == old(parameterMappings)
    {
      var m := BuildParameterMapping(content);
      if m.Failure? {
        return Failure(m.error);
      }
      parameterMappings := parameterMappings + [m.value];
      r := Success("?");
    }
  }

  /** The token handler as the parser sees it: every placeholder is written as `?`. */
  function Placeholder(content: string): string {
    "?"
  }

  /**
   * SqlSourceBuilder.  The `#{` / `}` parser keeps no state of its own,
   * so one instance serves every call of `parse`.
   */
  /** The text has no backslash, so no token in it is escaped. */
  predicate NoBackslash(s: string) {
    forall j :: 0 <= j < |s| ==> s[j] != '\\'
  }

  /** Where the first complete placeholder of `s` sits: the index of its `#{` and of the `}` closing it. */
  function FirstPlaceholder(s: string): (r: Option<(nat, nat)>)
    ensures r.Some? ==> r.value.0 + 2 <= r.value.1 < |s|
  {
    var start := IndexOf(s, "#{", 0);
    if start == -1 then None
    else
      var end := IndexOf(s, "}", start + 2);
      if end == -1 then None else Some((start, end))
  }

  class SqlSourceBuilder {
    const ctx: BuilderContext
    const shrinkWhitespacesInSql: bool
    const placeholders: GenericTokenParser

    ghost predicate Valid() {
      placeholders.Valid() && placeholders.openToken == "#{" && placeholders.closeToken == "}" &&
      forall c :: placeholders.handler(c) == "?"
    }

    constructor (ctx: BuilderContext, shrinkWhitespacesInSql: bool)
      ensures Valid() && this.ctx == ctx && this.shrinkWhitespacesInSql == shrinkWhitespacesInSql
    {
      this.ctx := ctx;
      this.shrinkWhitespacesInSql := shrinkWhitespacesInSql;
      placeholders := new GenericTokenParser("#{", "}", Placeholder);
    }

    /** The text handed to the placeholder parser: shrunk first when the configuration asks for it. */
    function ScannedText(originalSql: Option<string>): Option<string> {
      if shrinkWhitespacesInSql && originalSql.Some? then Some(Shrunk(originalSql.value)) else originalSql
    }

    /** What `parse` returns or throws. */
    function SourceOf(originalSql: Option<string>, parameterType: string, meta: MetaParameters): Result<StaticSqlSource>
      requires Valid()
    {
      if shrinkWhitespacesInSql && originalSql.None? then Failure(NullPointerException)
      else
        var p := placeholders.Parse(ScannedText(originalSql));
        match MappingsFor(ctx, meta, parameterType, p.calls)
        case Failure(e) => Failure(e)
        case Success(ms) => Success(StaticSqlSource(p.text, ms))
    }

    /** parse: scans the (possibly shrunk) text, handing each placeholder to a fresh handler. */
    method Parse(originalSql: Option<string>, parameterType: string, meta: MetaParameters) returns (r: Result<StaticSqlSource>)
      requires Valid()
      ensures r == SourceOf(originalSql, parameterType, meta)
    {
      var handler := new ParameterMappingTokenHandler(ctx, parameterType, meta);
      var sql := originalSql;
      if shrinkWhitespacesInSql {
        if originalSql.None? {
          return Failure(NullPointerException);
        }
        var shrunk := RemoveExtraWhitespaces(originalSql.value);
        sql := Some(shrunk);
      }
      var text, calls := placeholders.ParseText(sql);
      var i := 0;
      while i < |calls|
        invariant 0 <= i <= |calls|
        invariant handler.ctx == ctx && handler.meta == meta && handler.parameterType == parameterType
        invariant MappingsFor(ctx, meta, parameterType, calls[..i]) == Success(handler.parameterMappings)
      {
        ghost var before := handler.parameterMappings;
        var q := handler.HandleToken(calls[i]);
        if q.Failure? {
          MappingsForStepFails(ctx, meta, parameterType, calls, i);
          MappingsForPrefixFails(ctx, meta, parameterType, calls, i + 1);
          return Failure(q.error);
        }
        ghost var m := MappingFor(ctx, meta, parameterType, calls[i]);
        assert m.Success? && handler.parameterMappings == before + [m.value];
        MappingsForStep(ctx, meta, parameterType, calls, i);
        i := i + 1;
      }
      assert calls[..i] == calls;
      r := Success(StaticSqlSource(text, handler.parameterMappings));
    }

    /** One mapping per placeholder, in placeholder order, each built from that placeholder's content. */
    lemma {:induction false} OneMappingPerPlaceholder(originalSql: Option<string>, parameterType: string, meta: MetaParameters)
      requires Valid() && SourceOf(originalSql, parameterType, meta).Success?
      ensures var calls := placeholders.Parse(ScannedText(originalSql)).calls;
        var ms := SourceOf(originalSql, parameterType, meta).value.parameterMappings;
        |ms| == |calls| && forall i :: 0 <= i < |calls| ==> MappingFor(ctx, meta, parameterType, calls[i]) == Success(ms[i])
    {
    }

    /** Text without `#{` passes through unchanged (after shrinking, if enabled) and yields no mappings. */
    lemma {:induction false} NoPlaceholderUnchanged(originalSql: string, parameterType: string, meta: MetaParameters)
      requires Valid()
      requires var s := ScannedText(Some(originalSql)).value; forall j :: !OccursAt(s, "#{", j)
      ensures SourceOf(Some(originalSql), parameterType, meta) == Success(StaticSqlSource(ScannedText(Some(originalSql)).value, []))
    {
      placeholders.NoTokenUnchanged(ScannedText(Some(originalSql)).value);
    }

    /** A null statement is an empty source when not shrinking, and a NullPointerException when shrinking. */
    lemma {:induction false} NullSql(parameterType: string, meta: MetaParameters)
      requires Valid()
      ensures SourceOf(None, parameterType, meta) ==
        if shrinkWhitespacesInSql then Failure(NullPointerException) else Success(StaticSqlSource("", []))
    {
      placeholders.EmptyGivesEmpty(None);
    }

    /** What `parse` produces when it succeeds on a non-null text. */
    lemma {:induction false} SourceOfParsed(originalSql: string, parameterType: string, meta: MetaParameters)
      requires Valid() && SourceOf(Some(originalSql), parameterType, meta).Success?
      ensures var p := placeholders.Parse(ScannedText(Some(originalSql)));
        var ms := MappingsFor(ctx, meta, parameterType, p.calls);
        ms.Success? && SourceOf(Some(originalSql), parameterType, meta).value == StaticSqlSource(p.text, ms.value)
    {
    }

    /** The first complete placeholder becomes `?`, right after the text before it. */
    lemma {:induction false} FirstPlaceholderMarked(originalSql: string, parameterType: string, meta: MetaParameters)
      requires Valid() && SourceOf(Some(originalSql), parameterType, meta).Success?
      requires NoBackslash(ScannedText(Some(originalSql)).value)
      ensures var s := ScannedText(Some(originalSql)).value;
        FirstPlaceholder(s).Some? ==>
          s[..FirstPlaceholder(s).value.0] + "?" <= SourceOf(Some(originalSql), parameterType, meta).value.sql
    {
      var s := ScannedText(Some(originalSql)).value;
      if FirstPlaceholder(s).Some? {
        SourceOfParsed(originalSql, parameterType, meta);
        placeholders.FirstTokenHandled(s, 0);
        var p := placeholders.ParseFrom(s, 0);
        assert placeholders.Parse(Some(s)) == p;
        assert s[0..FirstPlaceholder(s).value.0] == s[..FirstPlaceholder(s).value.0];
        assert placeholders.handler(p.calls[0]) == "?";
      }
    }

    /** The content of the first complete placeholder is the first one mapped. */
    lemma {:induction false} FirstPlaceholderMapped(originalSql: string, parameterType: string, meta: MetaParameters)
      requires Valid() && SourceOf(Some(originalSql), parameterType, meta).Success?
      requires NoBackslash(ScannedText(Some(originalSql)).value)
      ensures var s := ScannedText(Some(originalSql)).value;
        var src := SourceOf(Some(originalSql), parameterType, meta).value;
        FirstPlaceholder(s).Some? ==>
          src.parameterMappings != [] &&
          Success(src.parameterMappings[0]) == MappingFor(ctx, meta, parameterType, s[FirstPlaceholder(s).value.0 + 2..FirstPlaceholder(s).value.1])
    {
      var s := ScannedText(Some(originalSql)).value;
      if FirstPlaceholder(s).Some? {
        SourceOfParsed(originalSql, parameterType, meta);
        placeholders.FirstTokenHandled(s, 0);
        var p := placeholders.ParseFrom(s, 0);
        assert placeholders.Parse(Some(s)) == p;
        var ms := MappingsFor(ctx, meta, parameterType, p.calls);
        assert MappingFor(ctx, meta, parameterType, p.calls[0]) == Success(ms.value[0]);
      }
    }
  }
}
