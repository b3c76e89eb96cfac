/**
 * MapperBuilderAssistant: the per-mapper helper that qualifies ids with the
 * mapper's namespace, tracks which cache the mapper's statements use, and
 * registers result maps and statements in the configuration.
 */
module MapperBuilderAssistants {
  import opened Lang
  import opened Text
  import opened Mapping

  /** A cache as the assistant sees it: its id and the implementation and eviction classes it was built with. */
  datatype CacheSpec = CacheSpec(id: string, implementation: string, eviction: string)

  datatype ResultFlag = IdFlag | ConstructorFlag

  /** One result mapping. */
  datatype ResultMapping = ResultMapping(property: Option<string>, column: Option<string>, flags: set<ResultFlag>)

  /**
   * `a.equals(b)` for result mappings: a mapping equals itself, and any
   * mapping with the same non-null property.  Identity is taken to be value
   * equality.
   */
  predicate SameMapping(a: ResultMapping, b: ResultMapping) {
    a == b || (a.property.Some? && a.property == b.property)
  }

  /** `ms.contains(e)`: some element of `ms` that `e` equals. */
  predicate Declared(e: ResultMapping, ms: seq<ResultMapping>) {
    exists j :: 0 <= j < |ms| && SameMapping(e, ms[j])
  }

  datatype ResultMap = ResultMap(id: string, mappings: seq<ResultMapping>)

  /** The parts of a statement that addMappedStatement decides. */
  datatype StatementRegistration = StatementRegistration(
    id: string,
    sqlCommandType: SqlCommandType,
    flushCacheRequired: bool,
    useCache: bool,
    cache: Option<CacheSpec>)

  /** The column pair of a composite column such as `{prop1=col1,prop2=col2}`. */
  datatype CompositeColumn = CompositeColumn(property: string, column: string)

  /** valueOrDefault: the value unless it is null. */
  function ValueOrDefault<T>(value: Option<T>, defaultValue: T): (r: T)
    ensures value.Some? ==> r == value.value
    ensures value.None? ==> r == defaultValue
  {
    if value.None? then defaultValue else value.value
  }

  // ---------------------------------------------------------------------
  // Namespace qualification
  // ---------------------------------------------------------------------

  /** The text Java's string concatenation gives for the namespace: "null" when it is unset. */
  function NamespaceText(ns: Option<string>): string {
    if ns.Some? then ns.value else "null"
  }

  function Qualified(ns: Option<string>, base: string): string {
    NamespaceText(ns) + "." + base
  }

  /**
   * applyCurrentNamespace: null stays null; a reference that contains a dot
   * is kept; an element name already prefixed by the namespace is kept and
   * any other dotted element name is rejected; the rest are prefixed.
   */
  function ApplyNamespace(ns: Option<string>, base: Option<string>, isReference: bool): (r: Result<Option<string>>)
    ensures base.None? ==> r == Success(None)
    ensures r.Failure? <==>
      base.Some? && !isReference && !(NamespaceText(ns) + "." <= base.value) && '.' in base.value
    ensures r.Failure? ==> r.error == BuilderException
    ensures base.Some? && r.Success? ==> r.value.Some?
  {
    if base.None? then Success(None)
    else if isReference && '.' in base.value then Success(base)
    else if !isReference && NamespaceText(ns) + "." <= base.value then Success(base)
    else if !isReference && '.' in base.value then Failure(BuilderException)
    else Success(Some(Qualified(ns, base.value)))
  }

  /** A qualified element name starts with the namespace and a dot; a qualified reference contains a dot. */
  lemma {:induction false} ApplyNamespaceShape(ns: Option<string>, base: string, isReference: bool)
    requires ApplyNamespace(ns, Some(base), isReference).Success?
    ensures var r := ApplyNamespace(ns, Some(base), isReference).value.value;
      (!isReference ==> NamespaceText(ns) + "." <= r) && (isReference ==> '.' in r) &&
      (r == base || r == Qualified(ns, base))
  {
    var p := NamespaceText(ns) + ".";
    PrefixOfAppend(p, base);
    if isReference && '.' !in base {
      assert Qualified(ns, base)[|NamespaceText(ns)|] == '.';
    }
  }

  /** Qualifying a name twice gives the same result as qualifying it once. */
  lemma {:induction false} ApplyNamespaceIdempotent(ns: Option<string>, base: string, isReference: bool)
    requires ApplyNamespace(ns, Some(base), isReference).Success?
    ensures var once := ApplyNamespace(ns, Some(base), isReference);
      ApplyNamespace(ns, once.value, isReference) == once
  {
    ApplyNamespaceShape(ns, base, isReference);
  }

  // ---------------------------------------------------------------------
  // Result map inheritance
  // ---------------------------------------------------------------------

  predicate IsConstructor(m: ResultMapping) {
    ConstructorFlag in m.flags
  }

  /** Whether some mapping carries the CONSTRUCTOR flag. */
  predicate DeclaresConstructor(ms: seq<ResultMapping>) {
    exists i :: 0 <= i < |ms| && IsConstructor(ms[i])
  }

  /** `removeAll`: the mappings of `s` that equal none of `excluded`, in order. */
  function WithoutAll(s: seq<ResultMapping>, excluded: seq<ResultMapping>): seq<ResultMapping>
    decreases |s|
  {
    if s == [] then []
    else
      var init := WithoutAll(s[..|s| - 1], excluded);
      if Declared(s[|s| - 1], excluded) then init else init + [s[|s| - 1]]
  }

  /** `removeIf` on the CONSTRUCTOR flag. */
  function WithoutConstructors(s: seq<ResultMapping>): seq<ResultMapping>
    decreases |s|
  {
    if s == [] then []
    else
      var init := WithoutConstructors(s[..|s| - 1]);
      if IsConstructor(s[|s| - 1]) then init else init + [s[|s| - 1]]
  }

  /** The parent mappings a child result map inherits. */
  function Inherited(parent: seq<ResultMapping>, child: seq<ResultMapping>): seq<ResultMapping> {
    var rest := WithoutAll(parent, child);
    if DeclaresConstructor(child) then WithoutConstructors(rest) else rest
  }

  lemma {:induction false} WithoutAllMembers(s: seq<ResultMapping>, excluded: seq<ResultMapping>)
    ensures forall m :: m in WithoutAll(s, excluded) <==> m in s && !Declared(m, excluded)
    decreases |s|
  {
    if s != [] {
      var init := s[..|s| - 1];
      WithoutAllMembers(init, excluded);
      assert s == init + [s[|s| - 1]];
    }
  }

  lemma {:induction false} WithoutConstructorsMembers(s: seq<ResultMapping>)
    ensures forall m :: m in WithoutConstructors(s) <==> m in s && !IsConstructor(m)
    decreases |s|
  {
    if s != [] {
      var init := s[..|s| - 1];
      WithoutConstructorsMembers(init);
      assert s == init + [s[|s| - 1]];
    }
  }

  /**
   * A child inherits exactly the parent mappings it does not declare
   * itself, minus the parent's constructor mappings when it declares a
   * constructor of its own.
   */
  lemma {:induction false} InheritedMembers(parent: seq<ResultMapping>, child: seq<ResultMapping>)
    ensures forall m :: m in Inherited(parent, child) <==>
      m in parent && !Declared(m, child) && !(DeclaresConstructor(child) && IsConstructor(m))
  {
    WithoutAllMembers(parent, child);
    WithoutConstructorsMembers(WithoutAll(parent, child));
  }

  /** A child mapping overrides every parent mapping for the same property. */
  lemma {:induction false} InheritedPropertiesOverridden(parent: seq<ResultMapping>, child: seq<ResultMapping>)
    ensures forall m, x :: m in Inherited(parent, child) && x in child && m.property.Some? ==> m.property != x.property
  {
    InheritedMembers(parent, child);
    forall m, x | m in Inherited(parent, child) && x in child && m.property.Some?
      ensures m.property != x.property
    {
      var j :| 0 <= j < |child| && child[j] == x;
      assert !SameMapping(m, child[j]);
    }
  }

  /** removeAll over the copied parent mappings. */
  method RemoveAll(s: seq<ResultMapping>, excluded: seq<ResultMapping>) returns (r: seq<ResultMapping>)
    ensures r == WithoutAll(s, excluded)
  {
    r := [];
    for i := 0 to |s|
      invariant r == WithoutAll(s[..i], excluded)
    {
      assert s[..i + 1][..i] == s[..i];
      var found := Contains(excluded, s[i]);
      if !found {
        r := r + [s[i]];
      }
    }
    assert s[..|s|] == s;
  }

  /** `ms.contains(e)`: the scan calls `e.equals` on each element until one matches. */
  method Contains(ms: seq<ResultMapping>, e: ResultMapping) returns (found: bool)
    ensures found == Declared(e, ms)
  {
    var i := 0;
    while i < |ms|
      invariant 0 <= i <= |ms|
      invariant forall j :: 0 <= j < i ==> !SameMapping(e, ms[j])
    {
      if e == ms[i] || (e.property.Some? && e.property == ms[i].property) {
        return true;
      }
      i := i + 1;
    }
    found := false;
  }

  /** removeIf on the CONSTRUCTOR flag. */
  method RemoveConstructors(s: seq<ResultMapping>) returns (r: seq<ResultMapping>)
    ensures r == WithoutConstructors(s)
  {
    r := [];
    for i := 0 to |s|
      invariant r == WithoutConstructors(s[..i])
    {
      assert s[..i + 1][..i] == s[..i];
      if ConstructorFlag !in s[i].flags {
        r := r + [s[i]];
      }
    }
    assert s[..|s|] == s;
  }

  /** The loop that looks for a CONSTRUCTOR flag, stopping at the first. */
  method FindConstructor(ms: seq<ResultMapping>) returns (declaresConstructor: bool)
    ensures declaresConstructor == DeclaresConstructor(ms)
  {
    declaresConstructor := false;
    var i := 0;
    while i < |ms|
      invariant 0 <= i <= |ms|
      invariant forall j :: 0 <= j < i ==> !IsConstructor(ms[j])
    {
      if ConstructorFlag in ms[i].flags {
        declaresConstructor := true;
        break;
      }
      i := i + 1;
    }
  }

  /** The extend branch of addResultMap: the child's own mappings, then those it inherits. */
  method ExtendMappings(child: seq<ResultMapping>, parent: seq<ResultMapping>) returns (merged: seq<ResultMapping>)
    ensures merged == child + Inherited(parent, child)
  {
    var extendedResultMappings := RemoveAll(parent, child);
    var declaresConstructor := FindConstructor(child);
    if declaresConstructor {
      extendedResultMappings := RemoveConstructors(extendedResultMappings);
    }
    merged := child + extendedResultMappings;
  }

  // ---------------------------------------------------------------------
  // Column names
  // ---------------------------------------------------------------------

  const ColumnDelims: set<char> := {'{', '}', ',', ' '}

  const CompositeDelims: set<char> := {'{', '}', '=', ',', ' '}

  function TokenSet(ts: seq<string>): set<string> {
    set i | 0 <= i < |ts| :: ts[i]
  }

  lemma {:induction false} TokenSetSnoc(ts: seq<string>, t: string)
    ensures TokenSet(ts + [t]) == TokenSet(ts) + {t}
  {
    var s := ts + [t];
    forall x | x in TokenSet(s)
      ensures x in TokenSet(ts) + {t}
    {
      var i :| 0 <= i < |s| && s[i] == x;
      if i < |ts| {
        assert ts[i] == x;
      }
    }
    forall x | x in TokenSet(ts) + {t}
      ensures x in TokenSet(s)
    {
      if x == t {
        assert s[|ts|] == t;
      } else {
        var i :| 0 <= i < |ts| && ts[i] == x;
        assert s[i] == x;
      }
    }
  }

  /** parseMultipleColumnNames: none for null, the name itself without a comma, else its tokens. */
  function ColumnNames(columnName: Option<string>): set<string> {
    if columnName.None? then {}
    else if ',' in columnName.value then TokenSet(Tokens(columnName.value, ColumnDelims))
    else {columnName.value}
  }

  /** With a comma, every column is non-empty and free of braces, commas and spaces. */
  lemma {:induction false} ColumnNamesClean(columnName: string)
    requires ',' in columnName
    ensures forall c :: c in ColumnNames(Some(columnName)) ==>
      |c| > 0 && forall j :: 0 <= j < |c| ==> c[j] !in ColumnDelims
  {
    TokensAreTokens(columnName, ColumnDelims);
  }

  method ParseMultipleColumnNames(columnName: Option<string>) returns (columns: set<string>)
    ensures columns == ColumnNames(columnName)
  {
    columns := {};
    if columnName.Some? {
      if ',' in columnName.value {
        var parser := new StringTokenizer(columnName.value, ColumnDelims);
        ghost var done: seq<string> := [];
        var more := parser.HasMoreTokens();
        while more
          invariant parser.Valid() && parser.str == columnName.value && parser.delims == ColumnDelims
          invariant done + parser.Remaining() == Tokens(columnName.value, ColumnDelims)
          invariant more <==> parser.Remaining() != []
          invariant columns == TokenSet(done)
          decreases |parser.Remaining()|
        {
          ghost var before := parser.Remaining();
          var column := parser.NextToken();
          assert done + [column.value] + parser.Remaining() == done + before;
          TokenSetSnoc(done, column.value);
          columns := columns + {column.value};
          done := done + [column.value];
          more := parser.HasMoreTokens();
        }
        assert done == Tokens(columnName.value, ColumnDelims);
      } else {
        columns := {columnName.value};
      }
    }
  }

  /** Tokens taken two at a time as property and column; an odd one out finds no column token. */
  function Pairs(ts: seq<string>): (r: Result<seq<CompositeColumn>>)
    decreases |ts|
  {
    if ts == [] then Success([])
    else if |ts| == 1 then Failure(NoSuchElementException)
    else
      match Pairs(ts[2..])
      case Failure(e) => Failure(e)
      case Success(rest) => Success([CompositeColumn(ts[0], ts[1])] + rest)
  }

  /** Pairing succeeds exactly for an even number of tokens and keeps them in order. */
  lemma {:induction false} PairsShape(ts: seq<string>)
    ensures Pairs(ts).Success? <==> |ts| % 2 == 0
    ensures Pairs(ts).Failure? ==> Pairs(ts).error == NoSuchElementException
    ensures Pairs(ts).Success? ==> var r := Pairs(ts).value;
      |r| * 2 == |ts| && forall i :: 0 <= i < |r| ==> r[i] == CompositeColumn(ts[2 * i], ts[2 * i + 1])
    decreases |ts|
  {
    if |ts| >= 2 {
      PairsShape(ts[2..]);
      if Pairs(ts).Success? {
        var r := Pairs(ts).value;
        var rest := Pairs(ts[2..]).value;
        assert r == [CompositeColumn(ts[0], ts[1])] + rest;
        forall i | 1 <= i < |r|
          ensures r[i] == CompositeColumn(ts[2 * i], ts[2 * i + 1])
        {
          assert r[i] == rest[i - 1];
          assert ts[2..][2 * (i - 1)] == ts[2 * i];
        }
      }
    }
  }

  /** parseCompositeColumnName: pairs only for a name containing '=' or ','. */
  function Composites(columnName: Option<string>): Result<seq<CompositeColumn>> {
    if columnName.None? || ('=' !in columnName.value && ',' !in columnName.value) then Success([])
    else Pairs(Tokens(columnName.value, CompositeDelims))
  }

  function Prepend(done: seq<CompositeColumn>, r: Result<seq<CompositeColumn>>): Result<seq<CompositeColumn>> {
    match r
    case Failure(e) => Failure(e)
    case Success(rest) => Success(done + rest)
  }

  /** Taking one pair off the remaining tokens. */
  lemma {:induction false} PrependStep(done: seq<CompositeColumn>, ts: seq<string>)
    requires |ts| >= 2
    ensures Prepend(done, Pairs(ts)) == Prepend(done + [CompositeColumn(ts[0], ts[1])], Pairs(ts[2..]))
  {
    match Pairs(ts[2..])
    case Failure(_) =>
    case Success(rest) =>
      AppendAssoc(done, [CompositeColumn(ts[0], ts[1])], rest);
  }

  method ParseCompositeColumnName(columnName: Option<string>) returns (r: Result<seq<CompositeColumn>>)
    ensures r == Composites(columnName)
  {
    if columnName.None? || ('=' !in columnName.value && ',' !in columnName.value) {
      return Success([]);
    }
    var parser := new StringTokenizer(columnName.value, CompositeDelims);
    var composites: seq<CompositeColumn> := [];
    assert parser.str[0..] == parser.str;
    match Pairs(parser.Remaining()) {
      case Failure(_) =>
      case Success(rest) => assert [] + rest == rest;
    }
    var more := parser.HasMoreTokens();
    while more
      invariant parser.Valid() && parser.str == columnName.value && parser.delims == CompositeDelims
      invariant Prepend(composites, Pairs(parser.Remaining())) == Composites(columnName)
      invariant more <==> parser.Remaining() != []
      decreases |parser.Remaining()|
    {
      ghost var before := parser.Remaining();
      var property := parser.NextToken();
      var column := parser.NextToken();
      if column.Failure? {
        assert |before| == 1;
        return Failure(column.error);
      }
      assert before[1..][1..] == before[2..];
      PrependStep(composites, before);
      composites := composites + [CompositeColumn(property.value, column.value)];
      more := parser.HasMoreTokens();
    }
    r := Success(composites);
    assert composites + [] == composites;
  }

  // ---------------------------------------------------------------------
  // The assistant
  // ---------------------------------------------------------------------

  /**
   * The registries of the configuration the assistant writes to.  Each is a
   * Configuration.StrictMap, whose `put` refuses a key it already holds with
   * an IllegalArgumentException.
   */
  class Registry {
    var caches: map<string, CacheSpec>
    var resultMaps: map<string, ResultMap>
    var mappedStatements: map<string, StatementRegistration>

    constructor (caches: map<string, CacheSpec>, resultMaps: map<string, ResultMap>)
      ensures this.caches == caches && this.resultMaps == resultMaps && mappedStatements == map[]
    {
      this.caches := caches;
      this.resultMaps := resultMaps;
      mappedStatements := map[];
    }
  }

  class MapperBuilderAssistant {
    const configuration: Registry
    const resource: string
    var currentNamespace: Option<string>
    var currentCache: Option<CacheSpec>
    var unresolvedCacheRef: bool

    constructor (configuration: Registry, resource: string)
      ensures this.configuration == configuration && this.resource == resource
      ensures currentNamespace == None && currentCache == None && !unresolvedCacheRef
    {
      this.configuration := configuration;
      this.resource := resource;
      currentNamespace := None;
      currentCache := None;
      unresolvedCacheRef := false;
    }

    /** setCurrentNamespace: null, or a namespace other than the one already set, is a BuilderException. */
    method SetCurrentNamespace(ns: Option<string>) returns (r: Outcome)
      modifies this
      ensures ns.None? ==> r == Fail(BuilderException) && unchanged(this)
      ensures ns.Some? && old(currentNamespace).Some? && old(currentNamespace) != ns ==>
        r == Fail(BuilderException) && unchanged(this)
      ensures ns.Some? && (old(currentNamespace).None? || old(currentNamespace) == ns) ==>
        r == Pass && currentNamespace == ns && currentCache == old(currentCache) && unresolvedCacheRef == old(unresolvedCacheRef)
    {
      if ns.None? {
        return Fail(BuilderException);
      }
      if currentNamespace.Some? && currentNamespace != ns {
        return Fail(BuilderException);
      }
      currentNamespace := ns;
      r := Pass;
    }

    /**
     * useCacheRef: a null namespace is a BuilderException before anything
     * changes; the flag is raised first and lowered only once the cache is
     * found, so a missing cache leaves it raised.
     */
    method UseCacheRef(namespace: Option<string>) returns (r: Result<CacheSpec>)
      modifies this
      ensures currentNamespace == old(currentNamespace)
      ensures namespace.None? ==> r == Failure(BuilderException) && unchanged(this)
      ensures namespace.Some? && namespace.value !in configuration.caches ==>
        r == Failure(IncompleteElementException) && unresolvedCacheRef && currentCache == old(currentCache)
      ensures namespace.Some? && namespace.value in configuration.caches ==>
        r == Success(configuration.caches[namespace.value]) && !unresolvedCacheRef &&
        currentCache == Some(configuration.caches[namespace.value])
    {
      if namespace.None? {
        return Failure(BuilderException);
      }
      unresolvedCacheRef := true;
      if namespace.value !in configuration.caches {
        return Failure(IncompleteElementException);
      }
      var cache := configuration.caches[namespace.value];
      currentCache := Some(cache);
      unresolvedCacheRef := false;
      r := Success(cache);
    }

    /**
     * useNewCache: a cache for the namespace, PerpetualCache with LRU
     * eviction unless classes are given; a namespace that already has a
     * cache is refused by the registry before the cache becomes current.
     */
    method UseNewCache(typeClass: Option<string>, evictionClass: Option<string>) returns (r: Result<CacheSpec>)
      requires currentNamespace.Some?
      modifies this, configuration
      ensures currentNamespace == old(currentNamespace) && unresolvedCacheRef == old(unresolvedCacheRef)
      ensures configuration.resultMaps == old(configuration.resultMaps) && configuration.mappedStatements == old(configuration.mappedStatements)
      ensures currentNamespace.value in old(configuration.caches) ==>
        r == Failure(IllegalArgumentException) && unchanged(this) && unchanged(configuration)
      ensures currentNamespace.value !in old(configuration.caches) ==>
        var cache := CacheSpec(currentNamespace.value, ValueOrDefault(typeClass, "PerpetualCache"), ValueOrDefault(evictionClass, "LruCache"));
        r == Success(cache) && currentCache == Some(cache) &&
        configuration.caches == old(configuration.caches)[currentNamespace.value := cache]
    {
      var cache := CacheSpec(currentNamespace.value, ValueOrDefault(typeClass, "PerpetualCache"), ValueOrDefault(evictionClass, "LruCache"));
      if cache.id in configuration.caches {
        return Failure(IllegalArgumentException);
      }
      configuration.caches := configuration.caches[cache.id := cache];
      currentCache := Some(cache);
      r := Success(cache);
    }

    /**
     * addMappedStatement: refused while a cache reference is unresolved;
     * otherwise registered under its qualified id with the current cache,
     * unless that id is already taken.
     */
    method AddMappedStatement(id: string, sqlCommandType: SqlCommandType, flushCache: bool, useCache: bool)
      returns (r: Result<StatementRegistration>)
      modifies configuration
      ensures configuration.caches == old(configuration.caches) && configuration.resultMaps == old(configuration.resultMaps)
      ensures old(unresolvedCacheRef) ==> r == Failure(IncompleteElementException) && unchanged(configuration)
      ensures !old(unresolvedCacheRef) && ApplyNamespace(currentNamespace, Some(id), false).Failure? ==>
        r == Failure(BuilderException) && unchanged(configuration)
      ensures !old(unresolvedCacheRef) && ApplyNamespace(currentNamespace, Some(id), false).Success? ==>
        var qualified := ApplyNamespace(currentNamespace, Some(id), false).value.value;
        qualified in old(configuration.mappedStatements) ==>
        r == Failure(IllegalArgumentException) && unchanged(configuration)
      ensures !old(unresolvedCacheRef) && ApplyNamespace(currentNamespace, Some(id), false).Success? ==>
        var qualified := ApplyNamespace(currentNamespace, Some(id), false).value.value;
        var isSelect := sqlCommandType == Select;
        qualified !in old(configuration.mappedStatements) ==>
        r == Success(StatementRegistration(qualified, sqlCommandType,
          ValueOrDefault(Some(flushCache), !isSelect), ValueOrDefault(Some(useCache), isSelect), currentCache)) &&
        configuration.mappedStatements == old(configuration.mappedStatements)[qualified := r.value]
    {
      if unresolvedCacheRef {
        return Failure(IncompleteElementException);
      }
      var qualified := ApplyNamespace(currentNamespace, Some(id), false);
      if qualified.Failure? {
        return Failure(qualified.error);
      }
      if qualified.value.value in configuration.mappedStatements {
        return Failure(IllegalArgumentException);
      }
      var isSelect := sqlCommandType == Select;
      var statement := StatementRegistration(qualified.value.value, sqlCommandType,
        ValueOrDefault(Some(flushCache), !isSelect), ValueOrDefault(Some(useCache), isSelect), currentCache);
      configuration.mappedStatements := configuration.mappedStatements[qualified.value.value := statement];
      r := Success(statement);
    }

    /**
     * addResultMap: qualifies the id and the parent reference; a child of an
     * unknown parent is an IncompleteElementException; otherwise the child
     * gets its own mappings followed by the ones it inherits, and is
     * registered unless its id is already taken.
     */
    method AddResultMap(id: string, extend: Option<string>, resultMappings: seq<ResultMapping>) returns (r: Result<ResultMap>)
      modifies configuration
      ensures configuration.caches == old(configuration.caches) && configuration.mappedStatements == old(configuration.mappedStatements)
      ensures r.Failure? ==> unchanged(configuration)
      ensures ApplyNamespace(currentNamespace, Some(id), false).Failure? ==> r == Failure(BuilderException)
      ensures ApplyNamespace(currentNamespace, Some(id), false).Success? ==>
        var qualified := ApplyNamespace(currentNamespace, Some(id), false).value.value;
        var parent := ApplyNamespace(currentNamespace, extend, true).value;
        && (parent.Some? && parent.value !in old(configuration.resultMaps) ==> r == Failure(IncompleteElementException))
        && ((parent.None? || parent.value in old(configuration.resultMaps)) && qualified in old(configuration.resultMaps) ==>
              r == Failure(IllegalArgumentException))
        && (parent.None? && qualified !in old(configuration.resultMaps) ==> r == Success(ResultMap(qualified, resultMappings)))
        && (parent.Some? && parent.value in old(configuration.resultMaps) && qualified !in old(configuration.resultMaps) ==>
              r == Success(ResultMap(qualified, resultMappings + Inherited(old(configuration.resultMaps)[parent.value].mappings, resultMappings))))
        && (r.Success? ==> configuration.resultMaps == old(configuration.resultMaps)[qualified := r.value])
    {
      var qualified := ApplyNamespace(currentNamespace, Some(id), false);
      if qualified.Failure? {
        return Failure(qualified.error);
      }
      var parent := ApplyNamespace(currentNamespace, extend, true);
      var mappings := resultMappings;
      if parent.value.Some? {
        if parent.value.value !in configuration.resultMaps {
          return Failure(IncompleteElementException);
        }
        var parentMap := configuration.resultMaps[parent.value.value];
        mappings := ExtendMappings(resultMappings, parentMap.mappings);
      }
      if qualified.value.value in configuration.resultMaps {
        return Failure(IllegalArgumentException);
      }
      var resultMap := ResultMap(qualified.value.value, mappings);
      configuration.resultMaps := configuration.resultMaps[qualified.value.value := resultMap];
      r := Success(resultMap);
    }
  }
}
