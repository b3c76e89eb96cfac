/**
 * BaseExecutor: the session-level (first-level) cache and the nesting
 * discipline of queries.  A query first consults the local cache; on a
 * miss it stores an execution placeholder under its key, runs the
 * statement, and replaces the placeholder by the rows.  Nested queries
 * issued while rows are being mapped run one level deeper; lookups that
 * hit an in-flight key are deferred and resolved once the outermost query
 * returns.
 */
module BaseExecutors {
  import opened Lang
  import opened Caches
  import opened CacheKeys
  import opened Mapping

  /** What the statement returns when the database is reached. */
  datatype DbResult = Rows(rows: seq<Obj>) | DbError(error: Error)

  /**
   * What `doQuery` does when it runs: while mapping rows it issues nested
   * queries and deferred loads against this executor, in order, and then
   * returns the rows or throws.  The database and result mapping are not
   * modelled; this tree stands for them.
   */
  datatype Plan = Plan(steps: seq<Nested>, result: DbResult)

  datatype Nested =
    | NestedQuery(ms: MappedStatement, parameter: Obj, rowBounds: RowBounds, key: Fingerprint, boundSql: BoundSql, plan: Plan)
    | NestedDefer(resultObject: nat, property: string, key: Fingerprint, targetType: string)

  /** A property of a result object waiting for a cached list. */
  datatype DeferredLoad = DeferredLoad(resultObject: nat, property: string, key: Fingerprint, targetType: string)

  /** `resultObject.setValue(property, value)` performed by a load. */
  datatype PropertyWrite = PropertyWrite(resultObject: nat, property: string, value: Obj)

  /** The calls made into the concrete executor's statement handling. */
  datatype BackendCall =
    | DoQueryCall(statementId: string)
    | DoUpdateCall(statementId: string)
    | DoFlushStatementsCall(isRollback: bool)
    | DoQueryCursorCall(statementId: string)

  datatype TransactionCall = TxCommit | TxRollback | TxClose

  /** The keys whose query is in flight. */
  function Placeholders(m: map<Fingerprint, Obj>): set<Fingerprint> {
    set k | k in m && m[k] == ExecutionPlaceholder
  }

  /** The local cache only ever holds result lists and placeholders. */
  ghost predicate LocalValues(m: map<Fingerprint, Obj>) {
    forall k :: k in m ==> m[k].ListObj? || m[k] == ExecutionPlaceholder
  }

  lemma {:induction false} PlaceholdersAfterPut(m: map<Fingerprint, Obj>, k: Fingerprint, v: Obj)
    ensures Placeholders(m[k := v]) == if v == ExecutionPlaceholder then Placeholders(m) + {k} else Placeholders(m) - {k}
  {
  }

  lemma {:induction false} PlaceholdersAfterRemove(m: map<Fingerprint, Obj>, k: Fingerprint)
    ensures Placeholders(m - {k}) == Placeholders(m) - {k}
  {
  }

  /** DeferredLoad.canLoad: the key holds something other than null and the placeholder. */
  predicate CanLoad(m: map<Fingerprint, Obj>, key: Fingerprint) {
    Lookup(m, key) != Null && Lookup(m, key) != ExecutionPlaceholder
  }

  /** DeferredLoad.load: the cached list, passed through the result extractor, is written into the property. */
  function LoadOf(config: Configuration, d: DeferredLoad, m: map<Fingerprint, Obj>): PropertyWrite {
    PropertyWrite(d.resultObject, d.property, config.extract(Lookup(m, d.key), d.targetType))
  }

  /** The writes of loading `ds` in queue order. */
  function LoadsOf(config: Configuration, ds: seq<DeferredLoad>, m: map<Fingerprint, Obj>): (ws: seq<PropertyWrite>)
    ensures |ws| == |ds|
    ensures forall i :: 0 <= i < |ds| ==> ws[i] == LoadOf(config, ds[i], m)
    decreases |ds|
  {
    if ds == [] then [] else LoadsOf(config, ds[..|ds| - 1], m) + [LoadOf(config, ds[|ds| - 1], m)]
  }

  /** The runtime value a parameter mapping contributes to a cache key. */
  function ParameterValue(config: Configuration, parameterObject: Obj, boundSql: BoundSql, pm: ParameterMapping): Obj {
    if HasAdditionalParameter(boundSql, pm.property) then AdditionalParameter(config, boundSql, pm.property)
    else if parameterObject.Null? then Null
    else if config.hasTypeHandler(parameterObject) then parameterObject
    else config.propertyValue(parameterObject, pm.property)
  }

  /** A name with no '.' and no '[' is its own first segment. */
  lemma {:induction false} FirstSegmentOfName(name: string)
    requires forall i :: 0 <= i < |name| ==> name[i] != '.' && name[i] != '['
    ensures FirstSegment(name) == name
  {
    var r := FirstSegment(name);
    assert name[..|r|] == r;
  }

  /** The first segment of `item.path` is `item` when `item` has no '.' and no '['. */
  lemma {:induction false} FirstSegmentOfPath(item: string, path: string)
    requires forall i :: 0 <= i < |item| ==> item[i] != '.' && item[i] != '['
    ensures FirstSegment(item + "." + path) == item
  {
    var full := item + "." + path;
    var r := FirstSegment(full);
    assert full[..|item|] == item;
    assert full[|item|] == '.';
    assert r == full[..|r|];
  }

  /**
   * A mapping for an additional parameter's property (`#{item.id}` inside a
   * foreach, bound as `__frch_item_0`) contributes that nested property,
   * read from the additional parameters, whatever the parameter object is.
   */
  lemma {:induction false} NestedAdditionalParameter(config: Configuration, parameterObject: Obj, boundSql: BoundSql, pm: ParameterMapping,
                                                     item: string, path: string)
    requires forall i :: 0 <= i < |item| ==> item[i] != '.' && item[i] != '['
    requires pm.property == item + "." + path && item in boundSql.additionalParameters
    ensures ParameterValue(config, parameterObject, boundSql, pm) ==
      config.propertyValue(MapObj(boundSql.additionalParameters, false), pm.property)
  {
    FirstSegmentOfPath(item, path);
    assert |FirstSegment(pm.property)| < |pm.property|;
  }

  /** A mapping whose property is a plain additional parameter's name contributes that parameter's value. */
  lemma {:induction false} PlainAdditionalParameter(config: Configuration, parameterObject: Obj, boundSql: BoundSql, pm: ParameterMapping)
    requires forall i :: 0 <= i < |pm.property| ==> pm.property[i] != '.' && pm.property[i] != '['
    requires pm.property in boundSql.additionalParameters
    ensures ParameterValue(config, parameterObject, boundSql, pm) == boundSql.additionalParameters[pm.property]
  {
    FirstSegmentOfName(pm.property);
  }

  /** The values of the mappings that are not OUT parameters, in order. */
  function ParameterValues(config: Configuration, parameterObject: Obj, boundSql: BoundSql, pms: seq<ParameterMapping>): (vs: seq<Obj>)
    ensures |vs| <= |pms|
    decreases |pms|
  {
    if pms == [] then []
    else
      var last := pms[|pms| - 1];
      ParameterValues(config, parameterObject, boundSql, pms[..|pms| - 1])
        + (if last.mode != Out then [ParameterValue(config, parameterObject, boundSql, last)] else [])
  }

  /** What a query's cache key absorbs, in order. */
  function KeyContributions(config: Configuration, ms: MappedStatement, parameterObject: Obj, rowBounds: RowBounds, boundSql: BoundSql): seq<Obj> {
    [Str(ms.id), Int(rowBounds.offset), Int(rowBounds.limit), Str(boundSql.sql)]
      + ParameterValues(config, parameterObject, boundSql, boundSql.parameterMappings)
      + (if config.environmentId.Some? then [Str(config.environmentId.value)] else [])
  }

  /** The cache key of a query, as a map key. */
  function KeyOf(config: Configuration, ms: MappedStatement, parameterObject: Obj, rowBounds: RowBounds, boundSql: BoundSql): Fingerprint {
    var xs := KeyContributions(config, ms, parameterObject, rowBounds, boundSql);
    Fingerprint(DigestOf(config.hasher, xs), xs)
  }

  /** Extending the mappings by one adds that mapping's value unless it is an OUT parameter. */
  lemma {:induction false} ParameterValuesStep(config: Configuration, parameterObject: Obj, boundSql: BoundSql, pms: seq<ParameterMapping>, i: nat)
    requires i < |pms|
    ensures ParameterValues(config, parameterObject, boundSql, pms[..i + 1]) ==
      ParameterValues(config, parameterObject, boundSql, pms[..i])
        + (if pms[i].mode != Out then [ParameterValue(config, parameterObject, boundSql, pms[i])] else [])
  {
    assert pms[..i + 1][..i] == pms[..i];
  }

  /** The number of mappings that are not OUT parameters. */
  function CountNotOut(pms: seq<ParameterMapping>): nat
    decreases |pms|
  {
    if pms == [] then 0 else CountNotOut(pms[..|pms| - 1]) + (if pms[|pms| - 1].mode != Out then 1 else 0)
  }

  lemma {:induction false} ParameterValuesCount(config: Configuration, parameterObject: Obj, boundSql: BoundSql, pms: seq<ParameterMapping>)
    ensures |ParameterValues(config, parameterObject, boundSql, pms)| == CountNotOut(pms)
    decreases |pms|
  {
    if pms != [] {
      ParameterValuesCount(config, parameterObject, boundSql, pms[..|pms| - 1]);
    }
  }

  /**
   * The statement id, offset, limit and SQL come first, then one value
   * per non-OUT parameter, then the environment id when there is one.
   */
  lemma {:induction false} KeyContributionOrder(config: Configuration, ms: MappedStatement, parameterObject: Obj, rowBounds: RowBounds, boundSql: BoundSql)
    ensures var xs := KeyContributions(config, ms, parameterObject, rowBounds, boundSql);
      |xs| == 4 + CountNotOut(boundSql.parameterMappings) + (if config.environmentId.Some? then 1 else 0) &&
      xs[0] == Str(ms.id) && xs[1] == Int(rowBounds.offset) && xs[2] == Int(rowBounds.limit) && xs[3] == Str(boundSql.sql) &&
      (config.environmentId.Some? ==> xs[|xs| - 1] == Str(config.environmentId.value))
  {
    ParameterValuesCount(config, parameterObject, boundSql, boundSql.parameterMappings);
  }

  /** Queries of different statements, or with different bounds or SQL, never share a key. */
  lemma {:induction false} DistinctQueriesDistinctKeys(config: Configuration, ms1: MappedStatement, p1: Obj, rb1: RowBounds, b1: BoundSql,
                                    ms2: MappedStatement, p2: Obj, rb2: RowBounds, b2: BoundSql)
    requires ms1.id != ms2.id || rb1 != rb2 || b1.sql != b2.sql
    ensures KeyOf(config, ms1, p1, rb1, b1) != KeyOf(config, ms2, p2, rb2, b2)
  {
    var xs := KeyContributions(config, ms1, p1, rb1, b1);
    var ys := KeyContributions(config, ms2, p2, rb2, b2);
    KeyContributionOrder(config, ms1, p1, rb1, b1);
    KeyContributionOrder(config, ms2, p2, rb2, b2);
    assert xs[0] != ys[0] || xs[1] != ys[1] || xs[2] != ys[2] || xs[3] != ys[3];
  }

  /** A valid key built from a query's contributions is that query's key. */
  lemma {:induction false} KeyOfContributions(config: Configuration, ms: MappedStatement, parameterObject: Obj, rowBounds: RowBounds, boundSql: BoundSql, k: CacheKey)
    requires k.Valid() && k.hasher == config.hasher
    requires k.updateList == KeyContributions(config, ms, parameterObject, rowBounds, boundSql)
    ensures k.Value() == KeyOf(config, ms, parameterObject, rowBounds, boundSql)
  {
  }

  /**
   * The keys of the nested queries among the first `n` steps of `plan`,
   * at any depth: the only keys a run of the plan can leave cached.
   */
  ghost function KeysUpTo(plan: Plan, n: nat): set<Fingerprint>
    requires n <= |plan.steps|
    decreases plan, n
  {
    if n == 0 then {}
    else
      var step := plan.steps[n - 1];
      assert step in plan.steps;
      KeysUpTo(plan, n - 1) + (if step.NestedQuery? then {step.key} + KeysUpTo(step.plan, |step.plan.steps|) else {})
  }

  ghost function PlanKeys(plan: Plan): set<Fingerprint> {
    KeysUpTo(plan, |plan.steps|)
  }

  /** The keys of a prefix of the steps are keys of the whole plan. */
  lemma {:induction false} KeysUpToGrow(plan: Plan, i: nat, j: nat)
    requires i <= j <= |plan.steps|
    ensures KeysUpTo(plan, i) <= KeysUpTo(plan, j)
    decreases j
  {
    if i < j {
      KeysUpToGrow(plan, i, j - 1);
    }
  }

  /**
   * What the local-cache lookup of a query sees: nothing when a result
   * handler is given, nothing after the flush a top-level flushing
   * statement performs, otherwise the cached value.
   */
  function Seen(m: map<Fingerprint, Obj>, queryStack: int, ms: MappedStatement, hasResultHandler: bool, key: Fingerprint): (v: Obj)
    ensures hasResultHandler ==> v == Null
    ensures !hasResultHandler && !(queryStack == 0 && ms.flushCacheRequired) ==> v == Lookup(m, key)
    ensures queryStack == 0 && ms.flushCacheRequired ==> v == Null
  {
    if hasResultHandler || (queryStack == 0 && ms.flushCacheRequired) then Null else Lookup(m, key)
  }

  class BaseExecutor {
    const configuration: Configuration
    var hasTransaction: bool
    var deferredLoads: seq<DeferredLoad>
    var localCache: Cache?<Fingerprint>
    var localOutputParameterCache: Cache?<Fingerprint>
    var queryStack: int
    var closed: bool
    /** Calls into the concrete executor, in order. */
    var backendLog: seq<BackendCall>
    /** Calls on the transaction, in order. */
    var transactionLog: seq<TransactionCall>
    /** Property writes made by deferred loads, in order. */
    var writes: seq<PropertyWrite>

    ghost predicate Valid()
      reads this, localCache, localOutputParameterCache
    {
      queryStack >= 0 &&
      (closed <==> localCache == null) && (closed <==> localOutputParameterCache == null) &&
      (closed ==> deferredLoads == [] && !hasTransaction) &&
      (!closed ==>
        localCache != localOutputParameterCache &&
        LocalValues(localCache.entries) &&
        (queryStack == 0 ==> Placeholders(localCache.entries) == {}))
    }

    /** The fields no query changes. */
    twostate predicate QueryFrame()
      reads this
    {
      closed == old(closed) && localCache == old(localCache) && localOutputParameterCache == old(localOutputParameterCache) &&
      queryStack == old(queryStack) && hasTransaction == old(hasTransaction) && transactionLog == old(transactionLog) &&
      old(backendLog) <= backendLog && old(writes) <= writes
    }

    constructor (configuration: Configuration, hasTransaction: bool)
      ensures Valid() && !closed && queryStack == 0 && this.configuration == configuration
      ensures this.hasTransaction == hasTransaction && deferredLoads == [] && writes == []
      ensures fresh(localCache) && fresh(localOutputParameterCache)
      ensures localCache.entries == map[] && localOutputParameterCache.entries == map[]
      ensures backendLog == [] && transactionLog == []
    {
      this.configuration := configuration;
      this.hasTransaction := hasTransaction;
      deferredLoads := [];
      localCache := new Cache("LocalCache");
      localOutputParameterCache := new Cache("LocalOutputParameterCache");
      queryStack := 0;
      closed := false;
      backendLog := [];
      transactionLog := [];
      writes := [];
    }

    predicate IsClosed()
      reads this
    {
      closed
    }

    method GetTransaction() returns (r: Outcome)
      ensures r == if closed then Fail(ExecutorException) else Pass
    {
      if closed {
        return Fail(ExecutorException);
      }
      return Pass;
    }

    /** Empties both local caches, unless the executor is closed. */
    method ClearLocalCache()
      requires Valid()
      modifies localCache, localOutputParameterCache
      ensures Valid()
      ensures !closed ==> localCache.entries == map[] && localOutputParameterCache.entries == map[]
    {
      if !closed {
        localCache.Clear();
        localOutputParameterCache.Clear();
      }
    }

    method FlushStatements(isRollback: bool, outcome: Outcome) returns (r: Outcome)
      modifies this
      ensures closed == old(closed) && localCache == old(localCache) && localOutputParameterCache == old(localOutputParameterCache)
      ensures queryStack == old(queryStack) && deferredLoads == old(deferredLoads) && hasTransaction == old(hasTransaction)
      ensures transactionLog == old(transactionLog) && writes == old(writes)
      ensures closed ==> r == Fail(ExecutorException) && backendLog == old(backendLog)
      ensures !closed ==> r == outcome && backendLog == old(backendLog) + [DoFlushStatementsCall(isRollback)]
    {
      if closed {
        return Fail(ExecutorException);
      }
      backendLog := backendLog + [DoFlushStatementsCall(isRollback)];
      r := outcome;
    }

    /** A write statement: clears the local cache, then runs (`outcome` is what `doUpdate` returns or throws). */
    method Update(ms: MappedStatement, parameter: Obj, outcome: Result<int>) returns (r: Result<int>)
      requires Valid()
      modifies this, localCache, localOutputParameterCache
      ensures Valid()
      ensures closed == old(closed) && localCache == old(localCache) && localOutputParameterCache == old(localOutputParameterCache)
      ensures queryStack == old(queryStack) && deferredLoads == old(deferredLoads) && transactionLog == old(transactionLog)
      ensures hasTransaction == old(hasTransaction) && writes == old(writes)
      ensures closed ==> r == Failure(ExecutorException) && backendLog == old(backendLog)
      ensures !closed ==> r == outcome && backendLog == old(backendLog) + [DoUpdateCall(ms.id)]
      ensures !closed ==> localCache.entries == map[] && localOutputParameterCache.entries == map[]
    {
      if closed {
        return Failure(ExecutorException);
      }
      ClearLocalCache();
      backendLog := backendLog + [DoUpdateCall(ms.id)];
      r := outcome;
    }

    /**
     * Clears the local cache, flushes batched statements and commits the
     * transaction when `required`; refuses on a closed executor.
     */
    method Commit(required: bool, flushOutcome: Outcome, commitOutcome: Outcome) returns (r: Outcome)
      requires Valid()
      modifies this, localCache, localOutputParameterCache
      ensures Valid()
      ensures closed == old(closed) && localCache == old(localCache) && localOutputParameterCache == old(localOutputParameterCache)
      ensures queryStack == old(queryStack) && deferredLoads == old(deferredLoads)
      ensures hasTransaction == old(hasTransaction) && writes == old(writes)
      ensures closed ==> r == Fail(ExecutorException) && transactionLog == old(transactionLog) && backendLog == old(backendLog)
      ensures !closed ==> localCache.entries == map[] && localOutputParameterCache.entries == map[]
      ensures !closed ==> backendLog == old(backendLog) + [DoFlushStatementsCall(false)]
      ensures !closed && flushOutcome.Fail? ==> r == flushOutcome && transactionLog == old(transactionLog)
      ensures !closed && flushOutcome.Pass? && !required ==> r == Pass && transactionLog == old(transactionLog)
      ensures !closed && flushOutcome.Pass? && required && hasTransaction ==> r == commitOutcome && transactionLog == old(transactionLog) + [TxCommit]
      ensures !closed && flushOutcome.Pass? && required && !hasTransaction ==> r == Fail(NullPointerException) && transactionLog == old(transactionLog)
    {
      if closed {
        return Fail(ExecutorException);
      }
      ClearLocalCache();
      var flushed := FlushStatements(false, flushOutcome);
      if flushed.Fail? {
        return flushed;
      }
      if required {
        if !hasTransaction {
          return Fail(NullPointerException);
        }
        transactionLog := transactionLog + [TxCommit];
        return commitOutcome;
      }
      return Pass;
    }

    /**
     * Unless closed: clears the local cache, flushes batched statements as a
     * rollback, and rolls the transaction back when `required` even if the
     * flush threw (an exception from the rollback replaces the flush's).
     */
    method Rollback(required: bool, flushOutcome: Outcome, rollbackOutcome: Outcome) returns (r: Outcome)
      requires Valid()
      modifies this, localCache, localOutputParameterCache
      ensures Valid()
      ensures closed == old(closed) && localCache == old(localCache) && localOutputParameterCache == old(localOutputParameterCache)
      ensures queryStack == old(queryStack) && deferredLoads == old(deferredLoads) && hasTransaction == old(hasTransaction)
      ensures writes == old(writes)
      ensures closed ==> r == Pass && transactionLog == old(transactionLog) && backendLog == old(backendLog)
      ensures !closed ==> localCache.entries == map[] && localOutputParameterCache.entries == map[]
      ensures !closed ==> backendLog == old(backendLog) + [DoFlushStatementsCall(true)]
      ensures !closed && !required ==> r == flushOutcome && transactionLog == old(transactionLog)
      ensures !closed && required && hasTransaction ==>
        transactionLog == old(transactionLog) + [TxRollback] && r == (if rollbackOutcome.Fail? then rollbackOutcome else flushOutcome)
      ensures !closed && required && !hasTransaction ==> r == Fail(NullPointerException) && transactionLog == old(transactionLog)
    {
      if closed {
        return Pass;
      }
      ClearLocalCache();
      r := FlushStatements(true, flushOutcome);
      if required {
        if !hasTransaction {
          return Fail(NullPointerException);
        }
        transactionLog := transactionLog + [TxRollback];
        if rollbackOutcome.Fail? {
          r := rollbackOutcome;
        }
      }
    }

    /**
     * Rolls back (forcing the transaction rollback when asked), closes the
     * transaction, swallows a SQLException from either, and always ends
     * closed with every resource released.
     */
    method Close(forceRollback: bool, flushOutcome: Outcome, rollbackOutcome: Outcome, closeOutcome: Outcome) returns (r: Outcome)
      requires Valid()
      modifies this, localCache, localOutputParameterCache
      ensures Valid() && closed
      ensures localCache == null && localOutputParameterCache == null && deferredLoads == [] && !hasTransaction
      ensures queryStack == old(queryStack)
      ensures r.Fail? ==> r.error != SqlException
      ensures old(closed) ==> r == Pass && transactionLog == old(transactionLog)
      ensures !old(closed) && old(hasTransaction) ==> |transactionLog| > 0 && transactionLog[|transactionLog| - 1] == TxClose
      ensures !old(closed) && (old(hasTransaction) || !forceRollback) && flushOutcome.Pass? && rollbackOutcome.Pass? && closeOutcome.Pass? ==> r == Pass
      ensures !old(closed) && !old(hasTransaction) && forceRollback ==> r == Fail(NullPointerException)
    {
      var inner := Rollback(forceRollback, flushOutcome, rollbackOutcome);
      if hasTransaction {
        transactionLog := transactionLog + [TxClose];
        if closeOutcome.Fail? {
          inner := closeOutcome;
        }
      }
      r := if inner.Fail? && inner.error == SqlException then Pass else inner;
      hasTransaction := false;
      deferredLoads := [];
      localCache := null;
      localOutputParameterCache := null;
      closed := true;
    }

    /**
     * The cache key of a query: the statement id, offset, limit, SQL, the
     * value of every non-OUT parameter and the environment id, in order.
     */
    method CreateCacheKey(ms: MappedStatement, parameterObject: Obj, rowBounds: RowBounds, boundSql: BoundSql) returns (r: Result<CacheKey>)
      requires |boundSql.parameterMappings| + 5 <= MaxUpdates
      ensures closed ==> r == Failure(ExecutorException)
      ensures !closed ==> r.Success? && fresh(r.value) && r.value.Valid() && !r.value.isNullKey && r.value.hasher == configuration.hasher
      ensures !closed ==> r.value.updateList == KeyContributions(configuration, ms, parameterObject, rowBounds, boundSql)
      ensures !closed ==> r.value.Value() == KeyOf(configuration, ms, parameterObject, rowBounds, boundSql)
    {
      if closed {
        return Failure(ExecutorException);
      }
      var cacheKey := new CacheKey(configuration.hasher);
      Absorb(cacheKey, Str(ms.id));
      Absorb(cacheKey, Int(rowBounds.offset));
      Absorb(cacheKey, Int(rowBounds.limit));
      Absorb(cacheKey, Str(boundSql.sql));
      assert cacheKey.updateList == [Str(ms.id), Int(rowBounds.offset), Int(rowBounds.limit), Str(boundSql.sql)];
      AbsorbParameters(cacheKey, parameterObject, boundSql);
      if configuration.environmentId.Some? {
        Absorb(cacheKey, Str(configuration.environmentId.value));
      }
      assert cacheKey.updateList == KeyContributions(configuration, ms, parameterObject, rowBounds, boundSql);
      KeyOfContributions(configuration, ms, parameterObject, rowBounds, boundSql, cacheKey);
      r := Success(cacheKey);
    }

    /** `cacheKey.update(x)` on a key that is not the null key: `x` is appended and the summaries stay the fold. */
    static method Absorb(cacheKey: CacheKey, x: Obj)
      requires cacheKey.Valid() && !cacheKey.isNullKey && |cacheKey.updateList| < MaxUpdates
      modifies cacheKey
      ensures cacheKey.Valid() && cacheKey.updateList == old(cacheKey.updateList) + [x]
    {
      var _ := cacheKey.Update(x);
    }

    /** Feeds the value of every non-OUT parameter mapping into the key, in order. */
    method AbsorbParameters(cacheKey: CacheKey, parameterObject: Obj, boundSql: BoundSql)
      requires cacheKey.Valid() && !cacheKey.isNullKey
      requires |cacheKey.updateList| + |boundSql.parameterMappings| < MaxUpdates
      modifies cacheKey
      ensures cacheKey.Valid()
      ensures cacheKey.updateList == old(cacheKey.updateList) + ParameterValues(configuration, parameterObject, boundSql, boundSql.parameterMappings)
    {
      var pms := boundSql.parameterMappings;
      var i := 0;
      while i < |pms|
        invariant 0 <= i <= |pms|
        invariant cacheKey.Valid()
        invariant cacheKey.updateList == old(cacheKey.updateList) + ParameterValues(configuration, parameterObject, boundSql, pms[..i])
        invariant |cacheKey.updateList| <= |old(cacheKey.updateList)| + i
      {
        ParameterValuesStep(configuration, parameterObject, boundSql, pms, i);
        ghost var before := ParameterValues(configuration, parameterObject, boundSql, pms[..i]);
        if pms[i].mode != Out {
          var propertyName := pms[i].property;
          var value;
          if HasAdditionalParameter(boundSql, propertyName) {
            value := AdditionalParameter(configuration, boundSql, propertyName);
          } else if parameterObject.Null? {
            value := Null;
          } else if configuration.hasTypeHandler(parameterObject) {
            value := parameterObject;
          } else {
            value := configuration.propertyValue(parameterObject, propertyName);
          }
          assert value == ParameterValue(configuration, parameterObject, boundSql, pms[i]);
          Absorb(cacheKey, value);
          AppendAssoc(old(cacheKey.updateList), before, [value]);
        } else {
          assert before + [] == before;
        }
        i := i + 1;
      }
      assert pms[..i] == pms;
    }

    /** Whether the local cache holds anything (a placeholder included) under the key; a closed executor has no cache. */
    method IsCached(key: Fingerprint) returns (r: Result<bool>)
      requires Valid()
      ensures closed ==> r == Failure(NullPointerException)
      ensures !closed ==> r == Success(Lookup(localCache.entries, key) != Null)
    {
      if localCache == null {
        return Failure(NullPointerException);
      }
      var v := localCache.GetObject(key);
      r := Success(v != Null);
    }

    /** Loads the property now when the key holds a finished result, otherwise queues the load. */
    method DeferLoad(resultObject: nat, property: string, key: Fingerprint, targetType: string) returns (r: Outcome)
      requires Valid()
      modifies this
      ensures Valid()
      ensures QueryFrame() && backendLog == old(backendLog)
      ensures old(closed) ==> r == Fail(ExecutorException) && unchanged(this)
      ensures !closed ==> r == Pass
      ensures !closed && CanLoad(localCache.entries, key) ==>
        writes == old(writes) + [LoadOf(configuration, DeferredLoad(resultObject, property, key, targetType), localCache.entries)] &&
        deferredLoads == old(deferredLoads)
      ensures !closed && !CanLoad(localCache.entries, key) ==>
        deferredLoads == old(deferredLoads) + [DeferredLoad(resultObject, property, key, targetType)] && writes == old(writes)
    {
      if closed {
        return Fail(ExecutorException);
      }
      var deferredLoad := DeferredLoad(resultObject, property, key, targetType);
      var v := localCache.GetObject(key);
      if v != Null && v != ExecutionPlaceholder {
        var value := configuration.extract(v, targetType);
        writes := writes + [PropertyWrite(resultObject, property, value)];
      } else {
        deferredLoads := deferredLoads + [deferredLoad];
      }
      r := Pass;
    }

    /** Loads every queued property in queue order, then empties the queue. */
    method DrainDeferredLoads()
      requires Valid() && !closed
      requires Placeholders(localCache.entries) == {}
      modifies this
      ensures Valid() && QueryFrame() && backendLog == old(backendLog)
      ensures deferredLoads == []
      ensures writes == old(writes) + LoadsOf(configuration, old(deferredLoads), localCache.entries)
    {
      var i := 0;
      while i < |deferredLoads|
        invariant 0 <= i <= |deferredLoads| && deferredLoads == old(deferredLoads)
        invariant Valid() && QueryFrame() && backendLog == old(backendLog)
        invariant writes == old(writes) + LoadsOf(configuration, deferredLoads[..i], localCache.entries)
      {
        ghost var loaded := LoadsOf(configuration, deferredLoads[..i], localCache.entries);
        var d := deferredLoads[i];
        var list := localCache.GetObject(d.key);
        var value := configuration.extract(list, d.targetType);
        assert PropertyWrite(d.resultObject, d.property, value) == LoadOf(configuration, d, localCache.entries);
        assert deferredLoads[..i + 1][..i] == deferredLoads[..i];
        writes := writes + [PropertyWrite(d.resultObject, d.property, value)];
        AppendAssoc(old(writes), loaded, [LoadOf(configuration, d, localCache.entries)]);
        i := i + 1;
      }
      assert deferredLoads[..i] == deferredLoads;
      deferredLoads := [];
    }

    /**
     * The query with a precomputed key.  `plan` is what `doQuery` does if
     * the database is reached.  When the outermost query succeeds, `drained`
     * is the queue of deferred loads it performs, `drainedFrom` the local
     * cache they read, and `before` the writes made until then.
     */
    method Query(ms: MappedStatement, parameter: Obj, rowBounds: RowBounds, hasResultHandler: bool,
                 key: Fingerprint, boundSql: BoundSql, plan: Plan)
      returns (r: Result<Obj>, ghost drained: seq<DeferredLoad>, ghost drainedFrom: map<Fingerprint, Obj>, ghost before: seq<PropertyWrite>)
      requires Valid()
      modifies this, localCache, localOutputParameterCache
      decreases plan, 3
      ensures Valid() && QueryFrame()
      ensures old(closed) ==> r == Failure(ExecutorException) && unchanged(this)
      ensures !closed ==> Placeholders(localCache.entries) == old(Placeholders(localCache.entries)) - (if hasResultHandler then {key} else {})
      ensures !closed ==> var seen := Seen(old(localCache.entries), old(queryStack), ms, hasResultHandler, key);
        (seen.ListObj? ==> r == Success(seen) && backendLog == old(backendLog)) &&
        (seen == ExecutionPlaceholder ==> r == Failure(ClassCastException) && backendLog == old(backendLog))
      ensures !closed && Seen(old(localCache.entries), old(queryStack), ms, hasResultHandler, key) == Null ==>
        |backendLog| > |old(backendLog)| && backendLog[|old(backendLog)|] == DoQueryCall(ms.id) &&
        (r.Success? ==> plan.result.Rows? && r.value == ListObj(plan.result.rows)) &&
        (r.Failure? ==> key !in localCache.entries)
      ensures r.Success? ==> r.value.ListObj?
      ensures !closed && r.Success? && !(old(queryStack) == 0 && configuration.localCacheScope == StatementScope) ==>
        Lookup(localCache.entries, key) == r.value
      ensures !closed && r.Success? && old(queryStack) == 0 ==>
        deferredLoads == [] && (configuration.localCacheScope == StatementScope ==> localCache.entries == map[])
      ensures !closed && r.Success? && old(queryStack) == 0 ==>
        old(deferredLoads) <= drained && old(writes) <= before &&
        writes == before + LoadsOf(configuration, drained, drainedFrom) &&
        Placeholders(drainedFrom) == {} && Lookup(drainedFrom, key) == r.value
      ensures !closed && !(r.Success? && old(queryStack) == 0) ==> old(deferredLoads) <= deferredLoads
      ensures !closed ==>
        localCache.entries.Keys <= (if old(queryStack) == 0 && ms.flushCacheRequired then {} else old(localCache.entries).Keys) + {key} + PlanKeys(plan)
    {
      drained, drainedFrom, before := [], map[], [];
      if closed {
        r := Failure(ExecutorException);
        return;
      }
      if queryStack == 0 && ms.flushCacheRequired {
        ClearLocalCache();
      }
      r := LookupOrFetch(ms, parameter, rowBounds, hasResultHandler, key, boundSql, plan);
      if r.Failure? {
        return;
      }
      if queryStack == 0 {
        drained, drainedFrom, before := deferredLoads, localCache.entries, writes;
        FinishOutermost();
      }
    }

    /**
     * The part of a query run one level deeper: the local-cache lookup
     * (skipped with a result handler), and the database on a miss.
     */
    method LookupOrFetch(ms: MappedStatement, parameter: Obj, rowBounds: RowBounds, hasResultHandler: bool,
                         key: Fingerprint, boundSql: BoundSql, plan: Plan) returns (r: Result<Obj>)
      requires Valid() && !closed
      modifies this, localCache, localOutputParameterCache
      decreases plan, 2
      ensures Valid() && QueryFrame()
      ensures Placeholders(localCache.entries) == old(Placeholders(localCache.entries)) - (if hasResultHandler then {key} else {})
      ensures var seen := if hasResultHandler then Null else Lookup(old(localCache.entries), key);
        (seen != Null ==>
          backendLog == old(backendLog) && localCache.entries == old(localCache.entries) &&
          deferredLoads == old(deferredLoads) && writes == old(writes)) &&
        (seen.ListObj? ==> r == Success(seen)) &&
        (seen == ExecutionPlaceholder ==> r == Failure(ClassCastException)) &&
        (seen == Null ==>
          |backendLog| > |old(backendLog)| && backendLog[|old(backendLog)|] == DoQueryCall(ms.id) &&
          (r.Success? ==> plan.result.Rows? && r.value == ListObj(plan.result.rows)) &&
          (r.Failure? ==> key !in localCache.entries))
      ensures r.Success? ==> r.value.ListObj? && Lookup(localCache.entries, key) == r.value
      ensures old(deferredLoads) <= deferredLoads
      ensures localCache.entries.Keys <= old(localCache.entries).Keys + {key} + PlanKeys(plan)
    {
      queryStack := queryStack + 1;
      var list := Null;
      if !hasResultHandler {
        list := localCache.GetObject(key);
      }
      if list != Null {
        if !list.ListObj? {
          queryStack := queryStack - 1;
          return Failure(ClassCastException);
        }
        r := Success(list);
      } else {
        r := QueryFromDatabase(ms, parameter, rowBounds, hasResultHandler, key, boundSql, plan);
      }
      queryStack := queryStack - 1;
    }

    /**
     * After the outermost query returns: every queued load is performed,
     * and a statement-scoped local cache is emptied.
     */
    method FinishOutermost()
      requires Valid() && !closed && queryStack == 0
      modifies this, localCache, localOutputParameterCache
      ensures Valid() && QueryFrame() && backendLog == old(backendLog)
      ensures deferredLoads == []
      ensures writes == old(writes) + LoadsOf(configuration, old(deferredLoads), old(localCache.entries))
      ensures configuration.localCacheScope == StatementScope ==> localCache.entries == map[] && localOutputParameterCache.entries == map[]
      ensures configuration.localCacheScope == SessionScope ==>
        localCache.entries == old(localCache.entries) && localOutputParameterCache.entries == old(localOutputParameterCache.entries)
    {
      DrainDeferredLoads();
      if configuration.localCacheScope == StatementScope {
        ClearLocalCache();
      }
    }

    /**
     * The query that builds its own key first (the four-argument form): a
     * closed executor refuses before any key is built.
     */
    method QueryWithNewKey(ms: MappedStatement, parameter: Obj, rowBounds: RowBounds, hasResultHandler: bool,
                           boundSql: BoundSql, plan: Plan) returns (r: Result<Obj>)
      requires Valid()
      requires |boundSql.parameterMappings| + 5 <= MaxUpdates
      modifies this, localCache, localOutputParameterCache
      ensures Valid() && QueryFrame()
      ensures old(closed) ==> r == Failure(ExecutorException) && unchanged(this)
      ensures !closed && r.Success? && !(old(queryStack) == 0 && configuration.localCacheScope == StatementScope) ==>
        Lookup(localCache.entries, KeyOf(configuration, ms, parameter, rowBounds, boundSql)) == r.value
    {
      var key := CreateCacheKey(ms, parameter, rowBounds, boundSql);
      if key.Failure? {
        return Failure(key.error);
      }
      var fingerprint := key.value.Value();
      ghost var drained, drainedFrom, before;
      r, drained, drainedFrom, before := Query(ms, parameter, rowBounds, hasResultHandler, fingerprint, boundSql, plan);
    }

    /** A cursor query goes straight to the concrete executor, with no closed check. */
    method QueryCursor(ms: MappedStatement, parameter: Obj, rowBounds: RowBounds, outcome: Result<Obj>) returns (r: Result<Obj>)
      modifies this
      ensures r == outcome && backendLog == old(backendLog) + [DoQueryCursorCall(ms.id)]
      ensures closed == old(closed) && queryStack == old(queryStack) && deferredLoads == old(deferredLoads)
      ensures localCache == old(localCache) && localOutputParameterCache == old(localOutputParameterCache)
      ensures transactionLog == old(transactionLog) && hasTransaction == old(hasTransaction)
    {
      backendLog := backendLog + [DoQueryCursorCall(ms.id)];
      r := outcome;
    }

    /** Marks the key as in flight, runs the statement, then replaces the marker by the rows (or drops it on failure). */
    method QueryFromDatabase(ms: MappedStatement, parameter: Obj, rowBounds: RowBounds, hasResultHandler: bool,
                             key: Fingerprint, boundSql: BoundSql, plan: Plan) returns (r: Result<Obj>)
      requires Valid() && !closed && queryStack > 0
      modifies this, localCache, localOutputParameterCache
      decreases plan, 1
      ensures Valid() && QueryFrame()
      ensures Placeholders(localCache.entries) == old(Placeholders(localCache.entries)) - {key}
      ensures |backendLog| > |old(backendLog)| && backendLog[|old(backendLog)|] == DoQueryCall(ms.id)
      ensures r.Success? ==> plan.result.Rows? && r.value == ListObj(plan.result.rows) && Lookup(localCache.entries, key) == r.value
      ensures r.Failure? ==> key !in localCache.entries
      ensures old(deferredLoads) <= deferredLoads
      ensures localCache.entries.Keys <= old(localCache.entries).Keys + {key} + PlanKeys(plan)
    {
      PlaceholdersAfterPut(localCache.entries, key, ExecutionPlaceholder);
      localCache.PutObject(key, ExecutionPlaceholder);
      var rows := DoQuery(ms, parameter, rowBounds, hasResultHandler, boundSql, plan, key);
      PlaceholdersAfterRemove(localCache.entries, key);
      var _ := localCache.RemoveObject(key);
      if rows.Failure? {
        return Failure(rows.error);
      }
      var list := ListObj(rows.value);
      PlaceholdersAfterPut(localCache.entries, key, list);
      localCache.PutObject(key, list);
      if ms.statementType == Callable {
        localOutputParameterCache.PutObject(key, parameter);
      }
      r := Success(list);
    }

    /**
     * The concrete executor's statement run, as described by `plan`; it
     * only ever runs while the placeholder for `inFlight` is in place.
     */
    method DoQuery(ms: MappedStatement, parameter: Obj, rowBounds: RowBounds, hasResultHandler: bool,
                   boundSql: BoundSql, plan: Plan, ghost inFlight: Fingerprint) returns (r: Result<seq<Obj>>)
      requires Valid() && !closed && queryStack > 0
      requires inFlight in Placeholders(localCache.entries)
      modifies this, localCache, localOutputParameterCache
      decreases plan, 0
      ensures Valid() && QueryFrame()
      ensures Placeholders(localCache.entries) == old(Placeholders(localCache.entries))
      ensures |backendLog| > |old(backendLog)| && backendLog[|old(backendLog)|] == DoQueryCall(ms.id)
      ensures r.Success? ==> plan.result.Rows? && r.value == plan.result.rows
      ensures old(deferredLoads) <= deferredLoads
      ensures localCache.entries.Keys <= old(localCache.entries).Keys + PlanKeys(plan)
    {
      backendLog := backendLog + [DoQueryCall(ms.id)];
      var i := 0;
      while i < |plan.steps|
        invariant 0 <= i <= |plan.steps|
        invariant Valid() && QueryFrame()
        invariant Placeholders(localCache.entries) == old(Placeholders(localCache.entries))
        invariant |backendLog| > |old(backendLog)| && backendLog[|old(backendLog)|] == DoQueryCall(ms.id)
        invariant old(deferredLoads) <= deferredLoads
        invariant localCache.entries.Keys <= old(localCache.entries).Keys + KeysUpTo(plan, i)
      {
        var step := plan.steps[i];
        assert step in plan.steps;
        match step {
          case NestedQuery(nms, np, nrb, nkey, nbs, nplan) =>
            ghost var logBefore := backendLog;
            ghost var drained, drainedFrom, before;
            var nr;
            nr, drained, drainedFrom, before := Query(nms, np, nrb, false, nkey, nbs, nplan);
            assert logBefore <= backendLog;
            if nr.Failure? {
              KeysUpToGrow(plan, i + 1, |plan.steps|);
              return Failure(nr.error);
            }
          case NestedDefer(resultObject, property, nkey, targetType) =>
            var _ := DeferLoad(resultObject, property, nkey, targetType);
        }
        i := i + 1;
      }
      match plan.result {
        case Rows(rows) => r := Success(rows);
        case DbError(e) => r := Failure(e);
      }
    }

  }
}
