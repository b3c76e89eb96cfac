/**
 * DynamicContext: the scratch state of one dynamic-SQL evaluation.  It
 * holds the bindings visible to expressions (the parameter object under
 * "_parameter", the database id under "_databaseId", and whatever `bind`
 * adds), the SQL fragments appended so far, and a counter handing out
 * unique numbers.  A name that is not bound is looked up in the parameter
 * object.
 */
module DynamicContexts {
  import opened Lang
  import opened Text
  import CacheKeys
  import SqlSessions

  const ParameterObjectKey: string := "_parameter"
  const DatabaseIdKey: string := "_databaseId"

  /** The MetaObject of the parameter object, seen through the questions the context asks it. */
  datatype MetaObject = MetaObject(originalObject: Obj, hasGetter: string -> bool, getValue: string -> Obj)

  /**
   * ContextMap.get: a bound name answers with its binding (even a null
   * one); otherwise, without a meta object, null; otherwise a parameter
   * that has a type handler stands for every name it has no property for;
   * otherwise the parameter's property of that name.
   */
  function ContextGet(bindings: map<string, Obj>, meta: Option<MetaObject>, fallback: bool, key: string): (r: Obj)
    ensures key in bindings ==> r == bindings[key]
    ensures key !in bindings && meta.None? ==> r == Null
    ensures key !in bindings && meta.Some? && fallback && !meta.value.hasGetter(key) ==> r == meta.value.originalObject
    ensures key !in bindings && meta.Some? && (!fallback || meta.value.hasGetter(key)) ==> r == meta.value.getValue(key)
  {
    if key in bindings then bindings[key]
    else if meta.None? then Null
    else if fallback && !meta.value.hasGetter(key) then meta.value.originalObject
    else meta.value.getValue(key)
  }

  /**
   * `Map.get` on a Map-valued parameter object: a ParamMap refuses an
   * absent name with a BindingException, any other map answers null.
   */
  function MapGet(p: Obj, name: string): (r: Result<Obj>)
    requires p.MapObj?
    ensures name in p.entries ==> r == Success(p.entries[name])
    ensures name !in p.entries ==> r == (if p.strict then Failure(BindingException) else Success(Null))
  {
    if p.strict then SqlSessions.StrictGet(p.entries, name) else Success(Lookup(p.entries, name))
  }

  /**
   * ContextAccessor.getProperty on a context map: the map's own answer when
   * the name is bound or the answer is non-null; otherwise the entry of a
   * Map-valued parameter object, as that map's `get` gives it; otherwise
   * null.  The only exception is a ParamMap's refusal.
   */
  function PropertyOf(bindings: map<string, Obj>, meta: Option<MetaObject>, fallback: bool, name: string): (r: Result<Obj>)
    ensures name in bindings ==> r == Success(bindings[name])
    ensures ContextGet(bindings, meta, fallback, name) != Null ==> r == Success(ContextGet(bindings, meta, fallback, name))
    ensures name !in bindings && ContextGet(bindings, meta, fallback, name) == Null ==>
      r == (var p := ContextGet(bindings, meta, fallback, ParameterObjectKey);
            if p.MapObj? then MapGet(p, name) else Success(Null))
    ensures r.Failure? ==> r.error == BindingException
  {
    var result := ContextGet(bindings, meta, fallback, name);
    if name in bindings || result != Null then Success(result)
    else
      var parameterObject := ContextGet(bindings, meta, fallback, ParameterObjectKey);
      if parameterObject.MapObj? then MapGet(parameterObject, name) else Success(Null)
  }

  /** A name that was bound resolves to its binding, whatever the parameter object says. */
  lemma {:induction false} BoundNameResolves(bindings: map<string, Obj>, meta: Option<MetaObject>, fallback: bool, name: string, v: Obj)
    ensures ContextGet(bindings[name := v], meta, fallback, name) == v
    ensures PropertyOf(bindings[name := v], meta, fallback, name) == Success(v)
  {
  }

  /**
   * With a plain Map parameter (which gets no meta object), an unbound
   * name is looked up in that map, and an absent one reads null.
   */
  lemma {:induction false} MapParameterLookup(bindings: map<string, Obj>, name: string)
    requires ParameterObjectKey in bindings && bindings[ParameterObjectKey].MapObj? && !bindings[ParameterObjectKey].strict
    requires name !in bindings
    ensures PropertyOf(bindings, None, false, name) == Success(Lookup(bindings[ParameterObjectKey].entries, name))
  {
    assert ContextGet(bindings, None, false, name) == Null;
  }

  /**
   * With a ParamMap parameter (the map a multi-argument or collection
   * call passes), an unbound name is that map's entry, and a name it does
   * not hold is a BindingException rather than null.
   */
  lemma {:induction false} ParamMapParameterLookup(bindings: map<string, Obj>, name: string)
    requires ParameterObjectKey in bindings && bindings[ParameterObjectKey].MapObj? && bindings[ParameterObjectKey].strict
    requires name !in bindings
    ensures var entries := bindings[ParameterObjectKey].entries;
      PropertyOf(bindings, None, false, name) ==
        if name in entries then Success(entries[name]) else Failure(BindingException)
  {
    assert ContextGet(bindings, None, false, name) == Null;
  }

  /**
   * With a parameter that has a type handler, every name it has no property
   * for resolves to the parameter itself: `#{anything}` reads a lone scalar.
   */
  lemma {:induction false} ScalarParameterAnyName(bindings: map<string, Obj>, meta: MetaObject, name: string)
    requires name !in bindings && !meta.hasGetter(name) && meta.originalObject != Null
    ensures PropertyOf(bindings, Some(meta), true, name) == Success(meta.originalObject)
  {
    assert ContextGet(bindings, Some(meta), true, name) == meta.originalObject;
  }

  /** getSql: the fragments joined by single spaces, with surrounding white space trimmed. */
  function Sql(fragments: seq<string>): string {
    Trim(Join(fragments, " "))
  }

  /** A string that neither starts nor ends with white space is its own trim. */
  lemma {:induction false} TrimOfClean(s: string)
    requires s != [] ==> s[0] > ' ' && s[|s| - 1] > ' '
    ensures Trim(s) == s
  {
    assert TrimStart(s) == s;
    assert TrimEnd(s) == s;
  }

  /** Trimming twice trims nothing more. */
  lemma {:induction false} TrimIdempotent(s: string)
    ensures Trim(Trim(s)) == Trim(s)
  {
    TrimOfClean(Trim(s));
  }

  /** The joined text starts with the first fragment and ends with the last one. */
  lemma {:induction false} JoinEnds(ts: seq<string>)
    requires ts != [] && ts[0] != [] && ts[|ts| - 1] != []
    ensures var j := Join(ts, " "); j != [] && j[0] == ts[0][0] && j[|j| - 1] == ts[|ts| - 1][|ts[|ts| - 1]| - 1]
  {
    var init := ts[..|ts| - 1];
    var last := ts[|ts| - 1];
    assert init + [last] == ts;
    JoinSnoc(init, last, " ");
    if init != [] {
      assert init[0] == ts[0];
      assert Join(ts, " ") == ts[0] + " " + Join(ts[1..], " ");
    }
  }

  /**
   * When the first fragment starts and the last one ends with a visible
   * character, getSql is exactly the fragments joined by single spaces.
   */
  lemma {:induction false} SqlOfCleanEnds(fragments: seq<string>)
    requires fragments != [] && fragments[0] != [] && fragments[|fragments| - 1] != []
    requires fragments[0][0] > ' '
    requires fragments[|fragments| - 1][|fragments[|fragments| - 1]| - 1] > ' '
    ensures Sql(fragments) == Join(fragments, " ")
  {
    JoinEnds(fragments);
    TrimOfClean(Join(fragments, " "));
  }

  /** No fragment, no SQL. */
  lemma {:induction false} SqlOfNothing()
    ensures Sql([]) == ""
  {
    TrimOfClean("");
  }

  class DynamicContext {
    /** The entries of the ContextMap. */
    var bindings: map<string, Obj>
    const parameterMetaObject: Option<MetaObject>
    const fallbackParameterObject: bool
    /** The fragments added to the StringJoiner, in order. */
    var sqlFragments: seq<string>
    var uniqueNumber: CacheKeys.Int32

    /**
     * A parameter object that is neither null nor a Map gets a meta object,
     * and falls back to itself when the configuration has a type handler
     * for it.  The parameter and the database id are bound either way.
     */
    constructor (parameterObject: Obj, databaseId: Option<string>,
                 newMetaObject: Obj -> MetaObject, hasTypeHandler: Obj -> bool)
      ensures bindings == map[ParameterObjectKey := parameterObject,
                              DatabaseIdKey := if databaseId.Some? then Str(databaseId.value) else Null]
      ensures parameterObject != Null && !parameterObject.MapObj? ==>
        parameterMetaObject == Some(newMetaObject(parameterObject))
        && fallbackParameterObject == hasTypeHandler(parameterObject)
      ensures parameterObject == Null || parameterObject.MapObj? ==>
        parameterMetaObject == None && !fallbackParameterObject
      ensures sqlFragments == [] && uniqueNumber == 0
    {
      if parameterObject != Null && !parameterObject.MapObj? {
        parameterMetaObject := Some(newMetaObject(parameterObject));
        fallbackParameterObject := hasTypeHandler(parameterObject);
      } else {
        parameterMetaObject := None;
        fallbackParameterObject := false;
      }
      var b: map<string, Obj> := map[];
      b := b[ParameterObjectKey := parameterObject];
      b := b[DatabaseIdKey := if databaseId.Some? then Str(databaseId.value) else Null];
      bindings := b;
      sqlFragments := [];
      uniqueNumber := 0;
    }

    function GetBindings(): map<string, Obj>
      reads this
    {
      bindings
    }

    /** The context map's `get`. */
    function Get(key: string): Obj
      reads this
    {
      ContextGet(bindings, parameterMetaObject, fallbackParameterObject, key)
    }

    /** The property accessor's `getProperty` on this context's map. */
    function GetProperty(name: string): Result<Obj>
      reads this
    {
      PropertyOf(bindings, parameterMetaObject, fallbackParameterObject, name)
    }

    /** bind: the name now stands for the value, replacing any earlier binding. */
    method Bind(name: string, value: Obj)
      modifies this
      ensures bindings == old(bindings)[name := value]
      ensures Get(name) == value && GetProperty(name) == Success(value)
      ensures sqlFragments == old(sqlFragments) && uniqueNumber == old(uniqueNumber)
    {
      bindings := bindings[name := value];
      BoundNameResolves(old(bindings), parameterMetaObject, fallbackParameterObject, name, value);
    }

    /** The property accessor's `setProperty`: a put into the context map. */
    method SetProperty(name: string, value: Obj)
      modifies this
      ensures bindings == old(bindings)[name := value]
      ensures GetProperty(name) == Success(value)
      ensures sqlFragments == old(sqlFragments) && uniqueNumber == old(uniqueNumber)
    {
      bindings := bindings[name := value];
      BoundNameResolves(old(bindings), parameterMetaObject, fallbackParameterObject, name, value);
    }

    /** appendSql: one more fragment for the joiner. */
    method AppendSql(sql: string)
      modifies this
      ensures sqlFragments == old(sqlFragments) + [sql]
      ensures bindings == old(bindings) && uniqueNumber == old(uniqueNumber)
    {
      sqlFragments := sqlFragments + [sql];
    }

    function GetSql(): string
      reads this
    {
      Sql(sqlFragments)
    }

    /**
     * getUniqueNumber: the current counter, which then advances by one; the
     * counter is a Java int, so it wraps past its largest value.
     */
    method GetUniqueNumber() returns (n: CacheKeys.Int32)
      modifies this
      ensures n == old(uniqueNumber)
      ensures uniqueNumber == CacheKeys.WrapInt(old(uniqueNumber) + 1)
      ensures old(uniqueNumber) < 0x7FFF_FFFF ==> uniqueNumber == old(uniqueNumber) + 1
      ensures bindings == old(bindings) && sqlFragments == old(sqlFragments)
    {
      n := uniqueNumber;
      uniqueNumber := CacheKeys.WrapInt(uniqueNumber + 1);
    }
  }
}

/** StaticTextSqlNode: a piece of SQL text copied into the context unchanged. */
module StaticTextSqlNodes {
  import opened DynamicContexts

  class StaticTextSqlNode {
    const text: string

    constructor (text: string)
      ensures this.text == text
    {
      this.text := text;
    }

    /** apply: append the text as one fragment; nothing else in the context changes, and it always succeeds. */
    method Apply(context: DynamicContext) returns (applied: bool)
      modifies context
      ensures applied
      ensures context.sqlFragments == old(context.sqlFragments) + [text]
      ensures context.bindings == old(context.bindings) && context.uniqueNumber == old(context.uniqueNumber)
    {
      context.AppendSql(text);
      return true;
    }
  }
}
