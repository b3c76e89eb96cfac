/**
 * CachingExecutor: the second-level cache in front of a BaseExecutor.
 * Statements with a shared cache read through the transactional staging
 * layer; what a session loads is staged and reaches the shared cache only
 * when the session commits.
 */
module CachingExecutors {
  import opened Lang
  import opened Caches
  import opened CacheKeys
  import opened Mapping
  import opened TransactionalCaches
  import opened BaseExecutors

  /** A callable statement with a parameter that is not IN cannot be cached. */
  predicate HasOutParams(ms: MappedStatement, boundSql: BoundSql) {
    ms.statementType == Callable && exists i :: 0 <= i < |boundSql.parameterMappings| && boundSql.parameterMappings[i].mode != In
  }

  /** Whether a query goes through the second-level cache. */
  predicate UsesSharedCache(ms: MappedStatement, hasResultHandler: bool) {
    ms.cache.Some? && ms.useCache && !hasResultHandler
  }

  /** Refuses a callable statement with a parameter that is not IN. */
  method EnsureNoOutParams(ms: MappedStatement, boundSql: BoundSql) returns (r: Outcome)
    ensures r.Fail? <==> HasOutParams(ms, boundSql)
    ensures r.Fail? ==> r.error == ExecutorException
  {
    if ms.statementType == Callable {
      var pms := boundSql.parameterMappings;
      var i := 0;
      while i < |pms|
        invariant 0 <= i <= |pms|
        invariant forall j :: 0 <= j < i ==> pms[j].mode == In
      {
        if pms[i].mode != In {
          return Fail(ExecutorException);
        }
        i := i + 1;
      }
    }
    return Pass;
  }

  class CachingExecutor {
    const delegate: BaseExecutor
    const tcm: TransactionalCacheManager<Fingerprint>

    /** The delegate's local caches are private: no shared cache is one of them. */
    ghost predicate Valid()
      reads this, delegate, delegate.localCache, delegate.localOutputParameterCache, tcm
    {
      delegate.Valid() && tcm.Valid() &&
      forall c :: c in tcm.transactionalCaches ==> c != delegate.localCache && c != delegate.localOutputParameterCache
    }

    constructor (delegate: BaseExecutor)
      requires delegate.Valid()
      ensures Valid() && this.delegate == delegate && fresh(tcm) && tcm.transactionalCaches == map[]
    {
      this.delegate := delegate;
      tcm := new TransactionalCacheManager();
    }

    /** Marks the shared cache for clearing at commit when the statement flushes it. */
    method FlushCacheIfRequired(ms: MappedStatement)
      requires Valid()
      requires ms.cache.Some? ==> ms.cache.value != delegate.localCache && ms.cache.value != delegate.localOutputParameterCache
      modifies tcm, tcm.transactionalCaches.Values
      ensures Valid()
      ensures ms.cache.Some? && ms.flushCacheRequired ==>
        tcm.ClearPending(ms.cache.value) && tcm.Staged(ms.cache.value) == map[]
      ensures ms.cache.Some? ==> tcm.Missed(ms.cache.value) == old(tcm.Missed(ms.cache.value))
      ensures !(ms.cache.Some? && ms.flushCacheRequired) ==> tcm.transactionalCaches == old(tcm.transactionalCaches)
      ensures forall d :: d in old(tcm.transactionalCaches) && !(ms.cache.Some? && ms.cache.value == d && ms.flushCacheRequired) ==>
        d in tcm.transactionalCaches && tcm.transactionalCaches[d] == old(tcm.transactionalCaches[d]) && unchanged(tcm.transactionalCaches[d])
      ensures forall t :: t in tcm.transactionalCaches.Values ==> t in old(tcm.transactionalCaches.Values) || fresh(t)
    {
      if ms.cache.Some? && ms.flushCacheRequired {
        tcm.Clear(ms.cache.value);
      }
    }

    /**
     * A query with a precomputed key.  Only a statement with a shared cache,
     * using it and without a result handler, goes through the second-level
     * cache; every other query is the delegate's.
     */
    method Query(ms: MappedStatement, parameter: Obj, rowBounds: RowBounds, hasResultHandler: bool,
                 key: Fingerprint, boundSql: BoundSql, plan: Plan) returns (r: Result<Obj>)
      requires Valid()
      requires ms.cache.Some? ==> ms.cache.value != delegate.localCache && ms.cache.value != delegate.localOutputParameterCache
      modifies delegate, delegate.localCache, delegate.localOutputParameterCache, tcm, tcm.transactionalCaches.Values
      ensures Valid()
      ensures ms.cache.Some? && ms.flushCacheRequired ==> tcm.ClearPending(ms.cache.value)
      ensures !UsesSharedCache(ms, hasResultHandler) && old(delegate.closed) ==> r == Failure(ExecutorException)
      ensures UsesSharedCache(ms, hasResultHandler) && HasOutParams(ms, boundSql) ==>
        r == Failure(ExecutorException) && unchanged(delegate)
      ensures UsesSharedCache(ms, hasResultHandler) && !HasOutParams(ms, boundSql) ==>
        var c := ms.cache.value;
        var hit := if tcm.ClearPending(c) then Null else Lookup(c.entries, key);
        var before := if ms.flushCacheRequired then map[] else old(tcm.Staged(c));
        (hit != Null ==> r == Success(hit) && unchanged(delegate) && tcm.Staged(c) == before) &&
        (hit == Null && old(delegate.closed) ==> r == Failure(ExecutorException) && unchanged(delegate)) &&
        (hit == Null && r.Success? ==> r.value.ListObj? && tcm.Staged(c) == before[key := r.value]) &&
        (hit == Null && r.Failure? ==> tcm.Staged(c) == before) &&
        tcm.Missed(c) == old(tcm.Missed(c)) + (if Lookup(c.entries, key) == Null then {key} else {})
    {
      if ms.cache.Some? {
        FlushCacheIfRequired(ms);
        if ms.useCache && !hasResultHandler {
          r := QueryThroughCache(ms, ms.cache.value, parameter, rowBounds, key, boundSql, plan);
          return;
        }
      }
      ghost var drained, drainedFrom, before;
      r, drained, drainedFrom, before := delegate.Query(ms, parameter, rowBounds, hasResultHandler, key, boundSql, plan);
    }

    /**
     * The second-level read: refuse OUT parameters, answer a hit from the
     * staging layer, otherwise ask the delegate and stage its list.
     */
    method QueryThroughCache(ms: MappedStatement, cache: Cache<Fingerprint>, parameter: Obj, rowBounds: RowBounds,
                             key: Fingerprint, boundSql: BoundSql, plan: Plan) returns (r: Result<Obj>)
      requires Valid()
      requires cache != delegate.localCache && cache != delegate.localOutputParameterCache
      modifies delegate, delegate.localCache, delegate.localOutputParameterCache, tcm, tcm.transactionalCaches.Values
      ensures Valid()
      ensures tcm.ClearPending(cache) == old(tcm.ClearPending(cache))
      ensures HasOutParams(ms, boundSql) ==> r == Failure(ExecutorException) && unchanged(delegate) && unchanged(tcm)
      ensures !HasOutParams(ms, boundSql) ==>
        tcm.Missed(cache) == old(tcm.Missed(cache)) + (if Lookup(cache.entries, key) == Null then {key} else {})
      ensures forall d :: d in old(tcm.transactionalCaches) && d != cache ==>
        d in tcm.transactionalCaches && tcm.transactionalCaches[d] == old(tcm.transactionalCaches[d]) && unchanged(tcm.transactionalCaches[d])
      ensures !HasOutParams(ms, boundSql) ==>
        var hit := if old(tcm.ClearPending(cache)) then Null else Lookup(cache.entries, key);
        (hit != Null ==> r == Success(hit) && unchanged(delegate) && tcm.Staged(cache) == old(tcm.Staged(cache))) &&
        (hit == Null && old(delegate.closed) ==> r == Failure(ExecutorException) && unchanged(delegate)) &&
        (hit == Null && r.Success? ==> r.value.ListObj? && tcm.Staged(cache) == old(tcm.Staged(cache))[key := r.value]) &&
        (hit == Null && r.Failure? ==> tcm.Staged(cache) == old(tcm.Staged(cache)))
    {
      var allowed := EnsureNoOutParams(ms, boundSql);
      if allowed.Fail? {
        return Failure(allowed.error);
      }
      var list := tcm.GetObject(cache, key);
      if list == Null {
        r := QueryOnMiss(ms, cache, parameter, rowBounds, key, boundSql, plan);
        return;
      }
      return Success(list);
    }

    /** A second-level miss: the delegate answers, and a list it returns is staged under the key. */
    method QueryOnMiss(ms: MappedStatement, cache: Cache<Fingerprint>, parameter: Obj, rowBounds: RowBounds,
                       key: Fingerprint, boundSql: BoundSql, plan: Plan) returns (r: Result<Obj>)
      requires Valid()
      requires cache != delegate.localCache && cache != delegate.localOutputParameterCache
      modifies delegate, delegate.localCache, delegate.localOutputParameterCache, tcm, tcm.transactionalCaches.Values
      ensures Valid()
      ensures tcm.ClearPending(cache) == old(tcm.ClearPending(cache))
      ensures old(delegate.closed) ==> r == Failure(ExecutorException) && unchanged(delegate)
      ensures r.Success? ==> r.value.ListObj? && tcm.Staged(cache) == old(tcm.Staged(cache))[key := r.value]
      ensures r.Failure? ==> tcm.Staged(cache) == old(tcm.Staged(cache))
      ensures tcm.Missed(cache) == old(tcm.Missed(cache))
      ensures forall d :: d in old(tcm.transactionalCaches) && d != cache ==>
        d in tcm.transactionalCaches && tcm.transactionalCaches[d] == old(tcm.transactionalCaches[d]) && unchanged(tcm.transactionalCaches[d])
    {
      ghost var drained, drainedFrom, before;
      r, drained, drainedFrom, before := delegate.Query(ms, parameter, rowBounds, false, key, boundSql, plan);
      if r.Success? {
        tcm.PutObject(cache, key, r.value);
      }
    }

    /** A write statement: flushes the shared cache when the statement asks for it, then runs. */
    method Update(ms: MappedStatement, parameter: Obj, outcome: Result<int>) returns (r: Result<int>)
      requires Valid()
      requires ms.cache.Some? ==> ms.cache.value != delegate.localCache && ms.cache.value != delegate.localOutputParameterCache
      modifies delegate, delegate.localCache, delegate.localOutputParameterCache, tcm, tcm.transactionalCaches.Values
      ensures Valid()
      ensures ms.cache.Some? && ms.flushCacheRequired ==> tcm.ClearPending(ms.cache.value) && tcm.Staged(ms.cache.value) == map[]
      ensures old(delegate.closed) ==> r == Failure(ExecutorException)
      ensures !old(delegate.closed) ==> r == outcome && delegate.backendLog == old(delegate.backendLog) + [DoUpdateCall(ms.id)]
    {
      FlushCacheIfRequired(ms);
      r := delegate.Update(ms, parameter, outcome);
    }

    method QueryCursor(ms: MappedStatement, parameter: Obj, rowBounds: RowBounds, outcome: Result<Obj>) returns (r: Result<Obj>)
      requires Valid()
      requires ms.cache.Some? ==> ms.cache.value != delegate.localCache && ms.cache.value != delegate.localOutputParameterCache
      modifies delegate, tcm, tcm.transactionalCaches.Values
      ensures Valid()
      ensures ms.cache.Some? && ms.flushCacheRequired ==> tcm.ClearPending(ms.cache.value) && tcm.Staged(ms.cache.value) == map[]
      ensures r == outcome && delegate.backendLog == old(delegate.backendLog) + [DoQueryCursorCall(ms.id)]
    {
      FlushCacheIfRequired(ms);
      r := delegate.QueryCursor(ms, parameter, rowBounds, outcome);
    }

    /** Commits the delegate first; only if that succeeds is every staging area published. */
    method Commit(required: bool, flushOutcome: Outcome, commitOutcome: Outcome) returns (r: Outcome)
      requires Valid()
      modifies delegate, delegate.localCache, delegate.localOutputParameterCache
      modifies tcm.transactionalCaches.Values, tcm.transactionalCaches.Keys
      ensures Valid()
      ensures r.Fail? ==> forall c :: c in tcm.transactionalCaches ==> unchanged(c) && unchanged(tcm.transactionalCaches[c])
      ensures r.Pass? ==> forall c :: c in tcm.transactionalCaches ==>
        c.entries == Committed(old(c.entries), old(tcm.transactionalCaches[c].clearOnCommit),
                               old(tcm.transactionalCaches[c].entriesToAddOnCommit), old(tcm.transactionalCaches[c].entriesMissedInCache))
        && tcm.transactionalCaches[c].IsReset()
      ensures old(delegate.closed) ==> r == Fail(ExecutorException)
    {
      r := delegate.Commit(required, flushOutcome, commitOutcome);
      if r.Fail? {
        return;
      }
      tcm.Commit();
    }

    /** Rolls the delegate back and, when `required`, discards every staging area even if the delegate threw. */
    method Rollback(required: bool, flushOutcome: Outcome, rollbackOutcome: Outcome) returns (r: Outcome)
      requires Valid()
      modifies delegate, delegate.localCache, delegate.localOutputParameterCache
      modifies tcm.transactionalCaches.Values, tcm.transactionalCaches.Keys
      ensures Valid()
      ensures required ==> forall c :: c in tcm.transactionalCaches ==>
        c.entries == RolledBack(old(c.entries), old(tcm.transactionalCaches[c].entriesMissedInCache))
        && tcm.transactionalCaches[c].IsReset()
      ensures !required ==> forall c :: c in tcm.transactionalCaches ==> unchanged(c) && unchanged(tcm.transactionalCaches[c])
      ensures old(delegate.closed) ==> r == Pass
    {
      r := delegate.Rollback(required, flushOutcome, rollbackOutcome);
      if required {
        tcm.Rollback();
      }
    }

    /** Discards (when forced) or publishes the staging areas, then always closes the delegate. */
    method Close(forceRollback: bool, flushOutcome: Outcome, rollbackOutcome: Outcome, closeOutcome: Outcome) returns (r: Outcome)
      requires Valid()
      modifies delegate, delegate.localCache, delegate.localOutputParameterCache
      modifies tcm.transactionalCaches.Values, tcm.transactionalCaches.Keys
      ensures Valid() && delegate.closed
      ensures forceRollback ==> forall c :: c in tcm.transactionalCaches ==>
        c.entries == RolledBack(old(c.entries), old(tcm.transactionalCaches[c].entriesMissedInCache))
      ensures !forceRollback ==> forall c :: c in tcm.transactionalCaches ==>
        c.entries == Committed(old(c.entries), old(tcm.transactionalCaches[c].clearOnCommit),
                               old(tcm.transactionalCaches[c].entriesToAddOnCommit), old(tcm.transactionalCaches[c].entriesMissedInCache))
      ensures forall c :: c in tcm.transactionalCaches ==> tcm.transactionalCaches[c].IsReset()
      ensures r.Fail? ==> r.error != SqlException
    {
      if forceRollback {
        tcm.Rollback();
      } else {
        tcm.Commit();
      }
      r := delegate.Close(forceRollback, flushOutcome, rollbackOutcome, closeOutcome);
    }

    predicate IsClosed()
      reads delegate
    {
      delegate.closed
    }

    method GetTransaction() returns (r: Outcome)
      ensures r == if delegate.closed then Fail(ExecutorException) else Pass
    {
      r := delegate.GetTransaction();
    }

    method FlushStatements(outcome: Outcome) returns (r: Outcome)
      modifies delegate
      ensures delegate.closed == old(delegate.closed) && delegate.localCache == old(delegate.localCache)
      ensures delegate.localOutputParameterCache == old(delegate.localOutputParameterCache)
      ensures delegate.queryStack == old(delegate.queryStack) && delegate.deferredLoads == old(delegate.deferredLoads)
      ensures delegate.hasTransaction == old(delegate.hasTransaction)
      ensures delegate.closed ==> r == Fail(ExecutorException)
      ensures !delegate.closed ==> r == outcome && delegate.backendLog == old(delegate.backendLog) + [DoFlushStatementsCall(false)]
    {
      r := delegate.FlushStatements(false, outcome);
    }

    method CreateCacheKey(ms: MappedStatement, parameterObject: Obj, rowBounds: RowBounds, boundSql: BoundSql) returns (r: Result<CacheKey>)
      requires |boundSql.parameterMappings| + 5 <= MaxUpdates
      ensures delegate.closed ==> r == Failure(ExecutorException)
      ensures !delegate.closed ==> r.Success? && fresh(r.value) && r.value.Value() == KeyOf(delegate.configuration, ms, parameterObject, rowBounds, boundSql)
    {
      r := delegate.CreateCacheKey(ms, parameterObject, rowBounds, boundSql);
    }

    method IsCached(key: Fingerprint) returns (r: Result<bool>)
      requires Valid()
      ensures delegate.closed ==> r == Failure(NullPointerException)
      ensures !delegate.closed ==> r == Success(Lookup(delegate.localCache.entries, key) != Null)
    {
      r := delegate.IsCached(key);
    }

    method ClearLocalCache()
      requires Valid()
      modifies delegate.localCache, delegate.localOutputParameterCache
      ensures Valid()
      ensures !delegate.closed ==> delegate.localCache.entries == map[] && delegate.localOutputParameterCache.entries == map[]
    {
      delegate.ClearLocalCache();
    }

    method DeferLoad(resultObject: nat, property: string, key: Fingerprint, targetType: string) returns (r: Outcome)
      requires Valid()
      modifies delegate
      ensures Valid()
      ensures old(delegate.closed) ==> r == Fail(ExecutorException) && unchanged(delegate)
      ensures !delegate.closed ==> r == Pass
    {
      r := delegate.DeferLoad(resultObject, property, key, targetType);
    }

    /** A caching executor is never itself wrapped. */
    method SetExecutorWrapper() returns (r: Outcome)
      ensures r == Fail(UnsupportedOperationException)
    {
      r := Fail(UnsupportedOperationException);
    }
  }
}
