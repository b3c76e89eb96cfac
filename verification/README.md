# MyBatis query-result caching, modelled in Dafny

This project models the core of MyBatis 3: its two-tier cache of query results, and the string and bookkeeping logic that produces what those caches are keyed on. The model is in Dafny and proves properties of that core.

- **Cache key.** `CacheKey` is an append-only log of the values a query contributes. It keeps a running hash, checksum and count, each a wrapping Java `int` or `long`.
- **Cache decorators.** `LruCache` and `TransactionalCache` wrap an abstract cache.
- **First-level cache.** `BaseExecutor` holds the session-level cache. It tracks:
  - the closed flag;
  - the query depth;
  - the execution placeholder stored while a query is in flight;
  - the queue of deferred loads.
- **Second-level cache.** `CachingExecutor` stages what a session loads in a transactional layer. The staged results reach the shared cache only when the session commits.
- **What the keys are built from:**
  - `GenericTokenParser`, the `#{...}` / `${...}` scanner with backslash escapes;
  - `SqlSourceBuilder`, which shrinks whitespace, replaces each placeholder with `?` and parses each placeholder into a parameter mapping;
  - `ParamNameResolver`, which turns mapper-method arguments into one parameter object;
  - `MapperBuilderAssistant`, which qualifies ids with a namespace, tracks the cache-ref state and tokenises column names.
- **Small state machines:**
  - `DefaultSqlSession`, with its dirty / auto-commit rule and the cardinality check of `selectOne`;
  - `DynamicContext` and `StaticTextSqlNode`, which hold bindings, SQL fragments and a unique counter;
  - `InterceptorChain`, an ordered fold of plugins.

The model has one Dafny module per source file. Code that changes state in place is modelled as a class. Its fields are the Java fields, and its methods carry `modifies` clauses. Pure lookups and parsers are modelled as functions, with lemmas about them.

Two modules are shared vocabulary:
- `Lang` holds the Java runtime vocabulary: a nullable value, the exception kinds, and an `Obj` type for an arbitrary Java object.
- `Text` holds the JDK string operations the core relies on: `String.indexOf`, `StringTokenizer`, `String.trim`, `String.valueOf` on a non-negative `int`, and joining.

`Mapping` holds the statement, bound-SQL and parameter-mapping records that the executors and builders pass to each other.

Collaborators that are not part of this model become parameters or uninterpreted functions:
- `ArrayUtil.hashCode`, which is a `Hasher` carried by every key;
- MetaObject and MetaClass reflection;
- the type-handler and alias registries;
- `ParameterExpression`;
- the JDBC-backed `doQuery`, `doUpdate` and `doFlushStatements`;
- the `Transaction`.

Two of these deserve a note:
- A concrete executor's `doQuery` is described by a `Plan`. The plan lists the nested queries and deferred loads issued while rows are mapped, then the rows or the exception.
- Effects that return nothing are `Outcome` parameters, and the calls are logged in fields.

PerpetualCache is not part of this model. A `map` stands in for it (`Caches.Cache`). A key is absent or holds a value, and `getObject` answers null for an absent key, as a `HashMap` does. TransactionalCacheManager.java is not part of this model. `TransactionalCaches.TransactionalCacheManager` reconstructs it from the way CachingExecutor uses it: one staging layer per shared cache, created on first use. Inside a cache, a CacheKey is represented by its `Fingerprint`: its hash, checksum, count and update list. This is because Java maps compare keys with `equals` and `hashCode`, and `CacheKeys.EqualIffSameUpdates` proves that the fingerprint is what `equals` compares.

## Model

Source paths are relative to the repository root.

| member | source | states |
|---|---|---|
| Text.IndexOf | src/main/java/org/apache/ibatis/parsing/GenericTokenParser.java:57 | `indexOf(pat, from)` is -1 or a position at or after `from` where the whole pattern fits. |
| Text.IndexOfOccurs | src/main/java/org/apache/ibatis/parsing/GenericTokenParser.java:57 | A position that `indexOf` finds is a real occurrence of the pattern. |
| Text.IndexOfIsFirst | src/main/java/org/apache/ibatis/parsing/GenericTokenParser.java:107 | The position found is the first occurrence at or after `from`, and -1 means there is none. |
| Text.IndexOfAbsent | src/main/java/org/apache/ibatis/parsing/GenericTokenParser.java:57-61 | When the pattern occurs nowhere, `indexOf` answers -1. |
| Text.RunLength | src/main/java/org/apache/ibatis/builder/SqlSourceBuilder.java:78 | A token runs up to the first delimiter or to the end of the string, and has no delimiter in it. |
| Text.TokensAreTokens | src/main/java/org/apache/ibatis/builder/SqlSourceBuilder.java:74-83 | Every token a StringTokenizer returns is non-empty and has no delimiter in it. |
| Text.TrimStart | src/main/java/org/apache/ibatis/scripting/xmltags/DynamicContext.java:101-103 | Trimming the front keeps a suffix of the string. Only characters at or below the space are dropped, and the suffix starts with a character above the space. |
| Text.TrimEnd | src/main/java/org/apache/ibatis/scripting/xmltags/DynamicContext.java:101-103 | Trimming the back keeps a prefix of the string. Only characters at or below the space are dropped, and the prefix ends with a character above the space. |
| Text.Trim | src/main/java/org/apache/ibatis/scripting/xmltags/DynamicContext.java:101-103 | `trim` leaves no character at or below the space at either end. |
| Text.TrimParts | src/main/java/org/apache/ibatis/scripting/xmltags/DynamicContext.java:101-103 | `trim` keeps one slice of the string. Everything before and after that slice is at or below the space. |
| Text.NatToString | src/main/java/org/apache/ibatis/reflection/ParamNameResolver.java:120 | `String.valueOf` of a non-negative count is a non-empty string of decimal digits. |
| Text.NatToStringInjective | src/main/java/org/apache/ibatis/reflection/ParamNameResolver.java:120 | Different counts give different default names. |
| Text.StringTokenizer.constructor | src/main/java/org/apache/ibatis/builder/SqlSourceBuilder.java:74 | A new tokenizer starts at the beginning of its string, with the given delimiters. |
| Text.StringTokenizer.SkipDelimiters | src/main/java/org/apache/ibatis/builder/SqlSourceBuilder.java:76 | Skipping delimiters stops at a non-delimiter or at the end, and leaves the remaining tokens as they were. |
| Text.StringTokenizer.ScanToken | src/main/java/org/apache/ibatis/builder/SqlSourceBuilder.java:78 | A token ends at the next delimiter or at the end of the string. |
| Text.StringTokenizer.HasMoreTokens | src/main/java/org/apache/ibatis/builder/SqlSourceBuilder.java:76 | `hasMoreTokens` is true exactly when some token remains. |
| Text.StringTokenizer.NextToken | src/main/java/org/apache/ibatis/builder/MapperBuilderAssistant.java:664-665 | `nextToken` returns the first remaining token and consumes it. With none left, it throws NoSuchElementException. |
| CacheKeys.AbsorbSnoc | src/main/java/org/apache/ibatis/cache/CacheKey.java:100-118 | Feeding one more value extends the summaries by exactly one `update` step. |
| CacheKeys.AbsorbAppend | src/main/java/org/apache/ibatis/cache/CacheKey.java:120-124 | Feeding `xs` then `ys` gives the same summaries as feeding `xs + ys`, so `updateAll` is a sequence of `update` calls. |
| CacheKeys.CountIsUpdateCount | src/main/java/org/apache/ibatis/cache/CacheKey.java:89-91 | The count of a key equals the number of values it absorbed, while that fits in an `int`. |
| CacheKeys.SingleUpdateHash | src/main/java/org/apache/ibatis/cache/CacheKey.java:102-114 | A key of one value `x` has hash 37*17 + base(x) (wrapped), checksum base(x) and count 1. Here base(x) is 1 for null and the element hash otherwise. |
| CacheKeys.CacheKey.constructor | src/main/java/org/apache/ibatis/cache/CacheKey.java:77-82 | A fresh key has hash 17, checksum 0, count 0 and an empty update list. |
| CacheKeys.CacheKey.NullCacheKey | src/main/java/org/apache/ibatis/cache/CacheKey.java:35-46 | NULL_CACHE_KEY is an empty key marked as refusing updates. |
| CacheKeys.CacheKey.FromObjects | src/main/java/org/apache/ibatis/cache/CacheKey.java:84-87 | `new CacheKey(objects)` has the update list `objects` and the summaries of a fresh key after absorbing them in order. |
| CacheKeys.CacheKey.Update | src/main/java/org/apache/ibatis/cache/CacheKey.java:100-118 | On NULL_CACHE_KEY, `update` throws CacheException and changes nothing. Otherwise it appends `x`, increments the count by 1, and applies the wrapping hash and checksum step. |
| CacheKeys.CacheKey.UpdateAll | src/main/java/org/apache/ibatis/cache/CacheKey.java:120-124 | On NULL_CACHE_KEY, `updateAll` throws CacheException. Otherwise it appends all the objects and leaves the summaries equal to the fold of `update` over them. |
| CacheKeys.CacheKey.Equals | src/main/java/org/apache/ibatis/cache/CacheKey.java:131-169 | `equals` is true exactly when the other key is non-null with the same hash, checksum, count and update list. Over the same hasher, it is true exactly when both absorbed the same values. |
| CacheKeys.CacheKey.HashCode | src/main/java/org/apache/ibatis/cache/CacheKey.java:171-174 | `hashCode` is determined by the update list alone. |
| CacheKeys.CacheKey.Clone | src/main/java/org/apache/ibatis/cache/CacheKey.java:185-190 | `clone` is a fresh, independent key whose value equals the original's. |
| CacheKeys.EqualIffSameUpdates | src/main/java/org/apache/ibatis/cache/CacheKey.java:131-174 | Two keys over the same hasher are equal exactly when they absorbed the same values, and then they have the same hash code. |
| LruCaches.WithoutMembers | src/main/java/org/apache/ibatis/cache/decorators/LruCache.java:93 | Removing a key from the order removes that key and nothing else. |
| LruCaches.WithoutDistinct | src/main/java/org/apache/ibatis/cache/decorators/LruCache.java:93 | Removing a key keeps the order free of duplicates, and shortens it by one exactly when the key was there. |
| LruCaches.AdmitKeepsBound | src/main/java/org/apache/ibatis/cache/decorators/LruCache.java:86-94 | After any put, the key map holds distinct keys and at most `size` of them. |
| LruCaches.AdmitEvictsOnlyWhenFull | src/main/java/org/apache/ibatis/cache/decorators/LruCache.java:88-93 | A key is evicted exactly when a new key arrives while the map is full. The victim is the eldest key, and the new key goes last. |
| LruCaches.AdmitMostRecent | src/main/java/org/apache/ibatis/cache/decorators/LruCache.java:125-127 | With room for one key, the key just put is the most recently used. |
| LruCaches.AdmitMembers | src/main/java/org/apache/ibatis/cache/decorators/LruCache.java:125-133 | No key is lost or invented: the keys tracked after the put, plus the evicted key, are the keys tracked before plus the new one. |
| LruCaches.RefreshChangesVictim | src/main/java/org/apache/ibatis/cache/decorators/LruCache.java:105-111 | Reading the eldest of two or more keys makes the next key the eviction victim. |
| LruCaches.AdmitAllWithinSize | src/main/java/org/apache/ibatis/cache/decorators/LruCache.java:86-94 | Putting up to `size` distinct keys keeps all of them, in insertion order, and evicts nothing. |
| LruCaches.OverflowEvictsFirst | src/main/java/org/apache/ibatis/cache/decorators/LruCache.java:86-94 | Putting `size + 1` distinct keys evicts exactly the first one. |
| LruCaches.LruCache.constructor | src/main/java/org/apache/ibatis/cache/decorators/LruCache.java:61-64 | A new LruCache has capacity 1024 and an empty key map. |
| LruCaches.LruCache.SetSize | src/main/java/org/apache/ibatis/cache/decorators/LruCache.java:76-96 | `setSize` installs an empty key map with the new bound. A negative size is an illegal initial capacity for LinkedHashMap: it throws IllegalArgumentException and keeps the old key map. |
| LruCaches.LruCache.PutObject | src/main/java/org/apache/ibatis/cache/decorators/LruCache.java:98-103 | `putObject` stores the value in the wrapped cache and admits the key into the key map. If a key is evicted, it is also removed from the wrapped cache. |
| LruCaches.LruCache.GetObject | src/main/java/org/apache/ibatis/cache/decorators/LruCache.java:105-111 | `getObject` refreshes the key's recency if it is tracked, even when the wrapped cache misses, and returns exactly the wrapped cache's value. |
| LruCaches.LruCache.RemoveObject | src/main/java/org/apache/ibatis/cache/decorators/LruCache.java:113-117 | `removeObject` removes the key from the wrapped cache only, and returns what it held. |
| LruCaches.LruCache.Clear | src/main/java/org/apache/ibatis/cache/decorators/LruCache.java:119-123 | `clear` empties both the wrapped cache and the key map. |
| LruCaches.LruCache.CycleKeyList | src/main/java/org/apache/ibatis/cache/decorators/LruCache.java:125-133 | `cycleKeyList` admits the key, removes the evicted key from the wrapped cache, and leaves no eldest key pending. |
| TransactionalCaches.CommitPublishesStaged | src/main/java/org/apache/ibatis/cache/decorators/TransactionalCache.java:157-163 | A staged put is what the shared cache holds after commit. |
| TransactionalCaches.CommitMarksMisses | src/main/java/org/apache/ibatis/cache/decorators/TransactionalCache.java:164-169 | A missed key that was never staged is stored as null on commit. |
| TransactionalCaches.CommitKeepsOthers | src/main/java/org/apache/ibatis/cache/decorators/TransactionalCache.java:130-141 | Keys that were neither staged nor missed keep their entry on commit, unless a clear is pending, which removes them. |
| TransactionalCaches.RollbackReleasesMisses | src/main/java/org/apache/ibatis/cache/decorators/TransactionalCache.java:172-181 | Rollback removes exactly the missed keys, and every other entry of the shared cache keeps its value. |
| TransactionalCaches.TransactionalCache.constructor | src/main/java/org/apache/ibatis/cache/decorators/TransactionalCache.java:60-65 | A new staging layer has nothing staged, nothing missed and no clear pending. |
| TransactionalCaches.TransactionalCache.GetObject | src/main/java/org/apache/ibatis/cache/decorators/TransactionalCache.java:77-97 | A null from the shared cache records the key as missed. The result is null while a clear is pending, and otherwise the shared cache's value. |
| TransactionalCaches.TransactionalCache.PutObject | src/main/java/org/apache/ibatis/cache/decorators/TransactionalCache.java:105-109 | `putObject` only stages the entry. The shared cache is untouched. |
| TransactionalCaches.TransactionalCache.RemoveObject | src/main/java/org/apache/ibatis/cache/decorators/TransactionalCache.java:111-114 | `removeObject` returns null and changes nothing. |
| TransactionalCaches.TransactionalCache.Clear | src/main/java/org/apache/ibatis/cache/decorators/TransactionalCache.java:119-125 | `clear` sets the pending clear, drops the staged entries and keeps the misses. It does not touch the shared cache. |
| TransactionalCaches.TransactionalCache.Commit | src/main/java/org/apache/ibatis/cache/decorators/TransactionalCache.java:130-141 | Commit does three things in order: it clears the shared cache when a clear is pending, writes every staged entry, then writes null for every unstaged miss. Afterwards the layer is reset. |
| TransactionalCaches.TransactionalCache.Rollback | src/main/java/org/apache/ibatis/cache/decorators/TransactionalCache.java:143-146 | Rollback removes every missed key from the shared cache, then resets the layer. |
| TransactionalCaches.TransactionalCache.Reset | src/main/java/org/apache/ibatis/cache/decorators/TransactionalCache.java:148-152 | After `reset`, there is no pending clear and both staging collections are empty. |
| TransactionalCaches.TransactionalCache.FlushPendingEntries | src/main/java/org/apache/ibatis/cache/decorators/TransactionalCache.java:157-170 | The shared cache gains every staged entry, then a null marker for every missed key that was not staged. |
| TransactionalCaches.TransactionalCache.WriteStaged | src/main/java/org/apache/ibatis/cache/decorators/TransactionalCache.java:160-162 | The staged entries are written over the shared cache's. |
| TransactionalCaches.TransactionalCache.WriteNullMarkers | src/main/java/org/apache/ibatis/cache/decorators/TransactionalCache.java:164-169 | Every missed key that was not staged gets a null entry. |
| TransactionalCaches.TransactionalCache.UnlockMissedEntries | src/main/java/org/apache/ibatis/cache/decorators/TransactionalCache.java:172-181 | Exactly the missed keys are removed from the shared cache. |
| TransactionalCaches.TransactionalCacheManager.constructor | src/main/java/org/apache/ibatis/executor/CachingExecutor.java:53 | A new manager has no staging layers. |
| TransactionalCaches.TransactionalCacheManager.GetTransactionalCache | src/main/java/org/apache/ibatis/executor/CachingExecutor.java:179 | Each shared cache has one staging layer. It is created fresh and reset on first use, and reused afterwards. |
| TransactionalCaches.TransactionalCacheManager.GetObject | src/main/java/org/apache/ibatis/executor/CachingExecutor.java:179 | A lookup goes through the cache's staging layer: null while a clear is pending, otherwise the shared value. A key the shared cache misses is added to the layer's missed keys. The staged entries and the other layers are unchanged. |
| TransactionalCaches.TransactionalCacheManager.PutObject | src/main/java/org/apache/ibatis/executor/CachingExecutor.java:198 | A put stages the entry in that cache's layer only. That layer's clear mark and missed keys are unchanged. |
| TransactionalCaches.TransactionalCacheManager.Clear | src/main/java/org/apache/ibatis/executor/CachingExecutor.java:282 | `clear(cache)` marks that cache's layer for clearing and empties its staged entries. Its missed keys and the other layers are unchanged. |
| TransactionalCaches.TransactionalCacheManager.Commit | src/main/java/org/apache/ibatis/executor/CachingExecutor.java:228 | Every shared cache receives the commit of its layer, and every layer is reset. |
| TransactionalCaches.TransactionalCacheManager.Rollback | src/main/java/org/apache/ibatis/executor/CachingExecutor.java:244 | Every shared cache loses its layer's missed keys, and every layer is reset. |
| BaseExecutors.PlaceholdersAfterPut | src/main/java/org/apache/ibatis/executor/BaseExecutor.java:534 | Storing the placeholder marks a key as in flight. Storing anything else unmarks it. |
| BaseExecutors.PlaceholdersAfterRemove | src/main/java/org/apache/ibatis/executor/BaseExecutor.java:546 | Removing a key ends its in-flight mark. |
| BaseExecutors.LoadsOf | src/main/java/org/apache/ibatis/executor/BaseExecutor.java:263-266 | Draining the queue performs one property write per deferred load, in queue order. |
| BaseExecutors.ParameterValues | src/main/java/org/apache/ibatis/executor/BaseExecutor.java:338-358 | The key takes at most one value per parameter mapping. |
| BaseExecutors.ParameterValuesStep | src/main/java/org/apache/ibatis/executor/BaseExecutor.java:339-356 | One more mapping adds its value, unless its mode is OUT. |
| BaseExecutors.ParameterValuesCount | src/main/java/org/apache/ibatis/executor/BaseExecutor.java:338-358 | The key takes exactly as many parameter values as there are mappings that are not OUT. |
| BaseExecutors.KeyContributionOrder | src/main/java/org/apache/ibatis/executor/BaseExecutor.java:316-364 | A key's values come in a fixed order: the statement id, offset, limit and SQL, then the non-OUT parameter values, then the environment id if an environment is set. |
| BaseExecutors.NestedAdditionalParameter | src/main/java/org/apache/ibatis/executor/BaseExecutor.java:345-346 | A property `item.path` whose `item` is an additional parameter, such as a foreach item, contributes that nested property read from the additional parameters. The parameter object plays no part. |
| BaseExecutors.PlainAdditionalParameter | src/main/java/org/apache/ibatis/executor/BaseExecutor.java:345-346 | A property that is a plain additional parameter's name contributes that parameter's value. |
| BaseExecutors.DistinctQueriesDistinctKeys | src/main/java/org/apache/ibatis/executor/BaseExecutor.java:325-330 | Queries that differ in statement id, offset, limit or SQL never share a cache key. |
| BaseExecutors.KeyOfContributions | src/main/java/org/apache/ibatis/executor/BaseExecutor.java:316-364 | A key that absorbed a query's values is that query's key. |
| BaseExecutors.Seen | src/main/java/org/apache/ibatis/executor/BaseExecutor.java:229-242 | A lookup with a result handler sees nothing. A top-level flushing statement clears the cache first, so it sees nothing. Otherwise the lookup sees the cached value. |
| BaseExecutors.BaseExecutor.constructor | src/main/java/org/apache/ibatis/executor/BaseExecutor.java:90-98 | A new executor is open, at depth 0, with empty fresh local caches, no deferred loads and no calls made. |
| BaseExecutors.BaseExecutor.GetTransaction | src/main/java/org/apache/ibatis/executor/BaseExecutor.java:105-110 | A closed executor throws ExecutorException. |
| BaseExecutors.BaseExecutor.ClearLocalCache | src/main/java/org/apache/ibatis/executor/BaseExecutor.java:413-419 | Unless the executor is closed, both local caches are emptied. |
| BaseExecutors.BaseExecutor.FlushStatements | src/main/java/org/apache/ibatis/executor/BaseExecutor.java:160-169 | A closed executor throws ExecutorException. Otherwise it calls `doFlushStatements` once and returns its outcome. |
| BaseExecutors.BaseExecutor.Update | src/main/java/org/apache/ibatis/executor/BaseExecutor.java:147-157 | A closed executor throws ExecutorException. Otherwise it empties both local caches, then calls `doUpdate` once and returns its result. The transaction flag and the writes are unchanged. |
| BaseExecutors.BaseExecutor.Commit | src/main/java/org/apache/ibatis/executor/BaseExecutor.java:377-389 | A closed executor throws. Otherwise it empties both local caches and flushes. If the flush fails, that exception is returned. Otherwise the transaction is committed only when required. The transaction flag and the writes are unchanged. |
| BaseExecutors.BaseExecutor.Rollback | src/main/java/org/apache/ibatis/executor/BaseExecutor.java:393-404 | A closed executor does nothing. Otherwise it empties both local caches and flushes as a rollback. When required, it rolls the transaction back even if the flush threw. The writes are unchanged. |
| BaseExecutors.BaseExecutor.Close | src/main/java/org/apache/ibatis/executor/BaseExecutor.java:113-133 | The executor always ends closed, with every resource released and the transaction closed last. A SQLException is never propagated. |
| BaseExecutors.BaseExecutor.CreateCacheKey | src/main/java/org/apache/ibatis/executor/BaseExecutor.java:316-364 | A closed executor throws. Otherwise the result is a fresh key whose update list is the query's values, in the fixed order. A mapping whose property's first segment is an additional parameter takes its value from the additional parameters. |
| BaseExecutors.BaseExecutor.AbsorbParameters | src/main/java/org/apache/ibatis/executor/BaseExecutor.java:338-358 | The loop appends the value of every non-OUT mapping to the key, in order. |
| BaseExecutors.BaseExecutor.IsCached | src/main/java/org/apache/ibatis/executor/BaseExecutor.java:372-374 | The key holds something, a placeholder included. A closed executor has no cache, so the lookup throws NullPointerException. |
| BaseExecutors.BaseExecutor.DeferLoad | src/main/java/org/apache/ibatis/executor/BaseExecutor.java:295-306 | A closed executor throws. The load runs at once exactly when the key holds a finished result (neither null nor the placeholder). Otherwise it is queued. |
| BaseExecutors.BaseExecutor.DrainDeferredLoads | src/main/java/org/apache/ibatis/executor/BaseExecutor.java:263-268 | Every queued load is performed in FIFO order, and then the queue is empty. |
| BaseExecutors.BaseExecutor.Query | src/main/java/org/apache/ibatis/executor/BaseExecutor.java:212-276 | See the note below the table. |
| BaseExecutors.BaseExecutor.LookupOrFetch | src/main/java/org/apache/ibatis/executor/BaseExecutor.java:236-260 | One level deeper, a hit returns the cached list and changes nothing, an in-flight placeholder throws ClassCastException, and a miss goes to the database. Only the query's own key and the keys of its nested queries can be left cached. |
| BaseExecutors.KeysUpToGrow | src/main/java/org/apache/ibatis/executor/BaseExecutor.java:451-455 | The keys of the nested queries in the first steps of a plan are keys of the whole plan. |
| BaseExecutors.BaseExecutor.FinishOutermost | src/main/java/org/apache/ibatis/executor/BaseExecutor.java:261-274 | At depth 0, every deferred load is performed in order and the queue is emptied. A statement-scoped local cache is then emptied. |
| BaseExecutors.BaseExecutor.QueryWithNewKey | src/main/java/org/apache/ibatis/executor/BaseExecutor.java:182-197 | A closed executor throws before any key is built. Otherwise the result is cached under the query's own key. |
| BaseExecutors.BaseExecutor.QueryCursor | src/main/java/org/apache/ibatis/executor/BaseExecutor.java:287-292 | A cursor query goes straight to `doQueryCursor`, with no closed check and no change to the caches. |
| BaseExecutors.BaseExecutor.QueryFromDatabase | src/main/java/org/apache/ibatis/executor/BaseExecutor.java:525-555 | The placeholder is stored before `doQuery` and is always removed. The rows are cached only on success. |
| BaseExecutors.BaseExecutor.DoQuery | src/main/java/org/apache/ibatis/executor/BaseExecutor.java:451-455 | The concrete executor runs the statement once, and its nested queries leave the set of in-flight keys as it was. |
| CachingExecutors.EnsureNoOutParams | src/main/java/org/apache/ibatis/executor/CachingExecutor.java:249-257 | It throws ExecutorException exactly for a callable statement with a parameter that is not IN. |
| CachingExecutors.CachingExecutor.constructor | src/main/java/org/apache/ibatis/executor/CachingExecutor.java:55-59 | The new executor wraps its delegate and has a fresh, empty manager. |
| CachingExecutors.CachingExecutor.FlushCacheIfRequired | src/main/java/org/apache/ibatis/executor/CachingExecutor.java:279-284 | The statement's shared cache is marked for clearing exactly when it exists and the statement flushes. Its missed keys and the other layers are unchanged. |
| CachingExecutors.CachingExecutor.Query | src/main/java/org/apache/ibatis/executor/CachingExecutor.java:148-208 | See the note below the table. |
| CachingExecutors.CachingExecutor.QueryThroughCache | src/main/java/org/apache/ibatis/executor/CachingExecutor.java:170-200 | OUT parameters are refused before any read, and nothing changes. A hit comes from the staging layer. A miss is recorded among the layer's missed keys, asks the delegate and stages the list it returns. Every other layer is unchanged. |
| CachingExecutors.CachingExecutor.QueryOnMiss | src/main/java/org/apache/ibatis/executor/CachingExecutor.java:182-199 | The delegate answers the miss, and a list it returns is staged under the key. A failure stages nothing. The layer's missed keys and every other layer are unchanged. |
| CachingExecutors.CachingExecutor.Update | src/main/java/org/apache/ibatis/executor/CachingExecutor.java:85-89 | A flushing statement's cache is marked for clearing before the delegate runs the update, and the delegate's result is returned. |
| CachingExecutors.CachingExecutor.QueryCursor | src/main/java/org/apache/ibatis/executor/CachingExecutor.java:91-95 | The statement's cache is flushed if required, and then the delegate opens the cursor. |
| CachingExecutors.CachingExecutor.Commit | src/main/java/org/apache/ibatis/executor/CachingExecutor.java:223-229 | The delegate commits first. Only if it succeeds is every staging layer committed into its shared cache. |
| CachingExecutors.CachingExecutor.Rollback | src/main/java/org/apache/ibatis/executor/CachingExecutor.java:236-247 | When required, every layer is rolled back even if the delegate threw. When not required, no layer changes. |
| CachingExecutors.CachingExecutor.Close | src/main/java/org/apache/ibatis/executor/CachingExecutor.java:66-78 | A forced close rolls every layer back, and any other close commits them. The delegate always ends closed. |
| CachingExecutors.CachingExecutor.GetTransaction | src/main/java/org/apache/ibatis/executor/CachingExecutor.java:61-64 | It delegates, so a closed delegate throws. |
| CachingExecutors.CachingExecutor.FlushStatements | src/main/java/org/apache/ibatis/executor/CachingExecutor.java:210-213 | It delegates: a closed delegate throws, and otherwise the flush runs once. |
| CachingExecutors.CachingExecutor.CreateCacheKey | src/main/java/org/apache/ibatis/executor/CachingExecutor.java:259-262 | The delegate's key for the query. |
| CachingExecutors.CachingExecutor.IsCached | src/main/java/org/apache/ibatis/executor/CachingExecutor.java:264-267 | The delegate's local-cache check. |
| CachingExecutors.CachingExecutor.ClearLocalCache | src/main/java/org/apache/ibatis/executor/CachingExecutor.java:274-277 | The delegate's local caches are emptied. |
| CachingExecutors.CachingExecutor.DeferLoad | src/main/java/org/apache/ibatis/executor/CachingExecutor.java:269-272 | The delegate's deferred load, which a closed delegate refuses. |
| CachingExecutors.CachingExecutor.SetExecutorWrapper | src/main/java/org/apache/ibatis/executor/CachingExecutor.java:286-289 | It always throws UnsupportedOperationException. |
| TokenParsers.GenericTokenParser.constructor | src/main/java/org/apache/ibatis/parsing/GenericTokenParser.java:37-41 | The parser keeps its tokens and its handler. |
| TokenParsers.GenericTokenParser.ScanClose | src/main/java/org/apache/ibatis/parsing/GenericTokenParser.java:107-120 | The close-token scan stops within the text, and any close token it finds fits in the text. |
| TokenParsers.GenericTokenParser.ScanAt | src/main/java/org/apache/ibatis/parsing/GenericTokenParser.java:109-119 | One step of the close-token scan stays within the text. |
| TokenParsers.GenericTokenParser.ScanCloseOccurs | src/main/java/org/apache/ibatis/parsing/GenericTokenParser.java:107-120 | A close token found by the scan is really there. |
| TokenParsers.GenericTokenParser.StepFromAdvances | src/main/java/org/apache/ibatis/parsing/GenericTokenParser.java:79-137 | A round found from an open token moves forward, to a place where scanning may resume. |
| TokenParsers.GenericTokenParser.StepAtAdvances | src/main/java/org/apache/ibatis/parsing/GenericTokenParser.java:76-141 | Every round of the do/while loop moves forward, so the loop ends. |
| TokenParsers.GenericTokenParser.ParseFromEnd | src/main/java/org/apache/ibatis/parsing/GenericTokenParser.java:122-126 | With no open token left, or an unclosed one, the rest of the text is copied as it is, with no handler call. |
| TokenParsers.GenericTokenParser.ParseFromLiteral | src/main/java/org/apache/ibatis/parsing/GenericTokenParser.java:79-90 | An escaped open token emits the text before its backslash and then the open token itself. No handler call is made. |
| TokenParsers.GenericTokenParser.ParseFromToken | src/main/java/org/apache/ibatis/parsing/GenericTokenParser.java:128-137 | A complete token emits the text before it and then the handler's value. The token's content is the next handler call. |
| TokenParsers.GenericTokenParser.StepAtUnescaped | src/main/java/org/apache/ibatis/parsing/GenericTokenParser.java:93-137 | After an unescaped open token, the close scan decides between a complete token and an unclosed one. |
| TokenParsers.GenericTokenParser.ScanForClose | src/main/java/org/apache/ibatis/parsing/GenericTokenParser.java:107-120 | The nested while loop computes exactly the close-token scan. |
| TokenParsers.GenericTokenParser.ScanRound | src/main/java/org/apache/ibatis/parsing/GenericTokenParser.java:79-137 | One round appends the literal, the handled token, or the unclosed rest, as the round's specification says. |
| TokenParsers.GenericTokenParser.TokenRound | src/main/java/org/apache/ibatis/parsing/GenericTokenParser.java:93-137 | A round whose open token is not escaped appends the text before the token and the handler's value, or the unclosed rest. |
| TokenParsers.GenericTokenParser.Round | src/main/java/org/apache/ibatis/parsing/GenericTokenParser.java:76-141 | Each loop round produces a prefix of the output and of the handler calls, and moves forward. |
| TokenParsers.GenericTokenParser.ParseText | src/main/java/org/apache/ibatis/parsing/GenericTokenParser.java:51-147 | `parse` returns exactly the specified output and makes exactly the specified handler calls, in order. |
| TokenParsers.GenericTokenParser.NoTokenUnchanged | src/main/java/org/apache/ibatis/parsing/GenericTokenParser.java:57-61 | A text with no open token comes back unchanged, and the handler is never called. |
| TokenParsers.GenericTokenParser.EmptyGivesEmpty | src/main/java/org/apache/ibatis/parsing/GenericTokenParser.java:52-54 | A null or empty text gives "". |
| TokenParsers.GenericTokenParser.ScanCloseWithoutEscapes | src/main/java/org/apache/ibatis/parsing/GenericTokenParser.java:107-120 | Without backslashes, a token's content is the text between the open token and the first close token after it. |
| TokenParsers.GenericTokenParser.TokenPieces | src/main/java/org/apache/ibatis/parsing/GenericTokenParser.java:101-136 | A token written back between the text before and after it restores the text. |
| TokenParsers.GenericTokenParser.EchoStep | src/main/java/org/apache/ibatis/parsing/GenericTokenParser.java:79-137 | Without backslashes, no token is escaped. A complete token is its open token, its content and its close token. |
| TokenParsers.GenericTokenParser.EchoHandlerRoundTrip | src/main/java/org/apache/ibatis/parsing/GenericTokenParser.java:51-147 | If the handler writes each token back as it was, a text without backslashes is reproduced exactly. |
| TokenParsers.GenericTokenParser.EchoRound | src/main/java/org/apache/ibatis/parsing/GenericTokenParser.java:76-141 | One round of the echo writes back in place what it consumed. |
| TokenParsers.GenericTokenParser.EchoToken | src/main/java/org/apache/ibatis/parsing/GenericTokenParser.java:134-136 | A token that the handler writes back unchanged leaves the text as it was. |
| TokenParsers.GenericTokenParser.EscapedOpenIsLiteral | src/main/java/org/apache/ibatis/parsing/GenericTokenParser.java:79-90 | An open token after a backslash is emitted without the backslash, and no handler call is made. |
| TokenParsers.GenericTokenParser.UnclosedTokenCopied | src/main/java/org/apache/ibatis/parsing/GenericTokenParser.java:122-126 | An open token that is never closed leaves the rest of the text as it is, with no further handler calls. |
| TokenParsers.GenericTokenParser.EscapedCloseInContent | src/main/java/org/apache/ibatis/parsing/GenericTokenParser.java:109-114 | Inside a token, a close token after a backslash becomes part of the content, without the backslash. |
| TokenParsers.GenericTokenParser.ScanCloseStops | src/main/java/org/apache/ibatis/parsing/GenericTokenParser.java:109-119 | The close scan stops at the first close token not preceded by a backslash, or finds none. |
| TokenParsers.GenericTokenParser.FirstTokenHandled | src/main/java/org/apache/ibatis/parsing/GenericTokenParser.java:134-140 | In a text without backslashes, the first complete token is handed to the handler first, with exactly its content, after the text before it. |
| SqlSourceBuilders.RemoveExtraWhitespaces | src/main/java/org/apache/ibatis/builder/SqlSourceBuilder.java:73-85 | The tokenizer loop returns the whitespace-delimited words joined by single spaces. |
| SqlSourceBuilders.ShrinkStep | src/main/java/org/apache/ibatis/builder/SqlSourceBuilder.java:78-82 | One more word extends the builder by the word, and by a space when more words follow. |
| SqlSourceBuilders.ShrunkKeepsWords | src/main/java/org/apache/ibatis/builder/SqlSourceBuilder.java:73-85 | Shrinking keeps the words, in order. |
| SqlSourceBuilders.ShrunkIdempotent | src/main/java/org/apache/ibatis/builder/SqlSourceBuilder.java:73-85 | Shrinking twice is the same as shrinking once. |
| SqlSourceBuilders.ShrunkSpacing | src/main/java/org/apache/ibatis/builder/SqlSourceBuilder.java:76-84 | The shrunk text has no leading or trailing space and never two spaces in a row. |
| SqlSourceBuilders.ParseParameterMapping | src/main/java/org/apache/ibatis/builder/SqlSourceBuilder.java:291-299 | Parsing fails exactly when ParameterExpression fails, and every failure comes out as a BuilderException. |
| SqlSourceBuilders.ValueOf | src/main/java/org/apache/ibatis/builder/SqlSourceBuilder.java:188 | An attribute has a value exactly when some entry names it, and the value is that entry's. |
| SqlSourceBuilders.ApplyEntry | src/main/java/org/apache/ibatis/builder/SqlSourceBuilder.java:241-275 | An entry is accepted exactly when it is a listed attribute or `property`, its scale parses, and its javaType, jdbcType or mode alias resolves. Otherwise a numericScale that does not parse throws NumberFormatException, and anything else throws BuilderException. An accepted javaType, jdbcType, resultMap or typeHandler sets only its own field, and the property is never changed. |
| SqlSourceBuilders.ApplyEntriesSucceeds | src/main/java/org/apache/ibatis/builder/SqlSourceBuilder.java:241-275 | The attribute loop succeeds exactly when every entry is accepted. |
| SqlSourceBuilders.ApplyEntriesError | src/main/java/org/apache/ibatis/builder/SqlSourceBuilder.java:260-274 | The loop's exception is NumberFormatException only when some numericScale value does not parse. Otherwise it is BuilderException. |
| SqlSourceBuilders.ApplyEntriesFields | src/main/java/org/apache/ibatis/builder/SqlSourceBuilder.java:246-269 | The last javaType, jdbcType and resultMap win, each alias resolved. The last typeHandler alias is kept, and the property never changes. |
| SqlSourceBuilders.MappingAccepted | src/main/java/org/apache/ibatis/builder/SqlSourceBuilder.java:162-284 | A placeholder is mapped exactly when its content parses, every attribute is accepted, and the typeHandler alias resolution and `build()` succeed on the loop's result. |
| SqlSourceBuilders.InvalidAttributeRejected | src/main/java/org/apache/ibatis/builder/SqlSourceBuilder.java:268-274 | An `expression` attribute, an unlisted name, or content that does not parse gives BuilderException, unless a bad numericScale comes first. |
| SqlSourceBuilders.MappingFields | src/main/java/org/apache/ibatis/builder/SqlSourceBuilder.java:233-283 | A mapping has its named property and the explicit javaType, or else the inferred type. It has the given jdbcType and resultMap. Its type handler is the alias resolved against that java type, or else the registry's default. It passes `build()`'s check: a ResultSet has a result map, and anything else has a type handler. |
| SqlSourceBuilders.Build | src/main/java/org/apache/ibatis/builder/SqlSourceBuilder.java:283 | `build()` gives a mapping without a handler the registry's default, and changes nothing else. It succeeds exactly when a ResultSet has a result map, or a non-ResultSet has a handler. Otherwise it throws IllegalStateException. |
| SqlSourceBuilders.Finish | src/main/java/org/apache/ibatis/builder/SqlSourceBuilder.java:278-283 | A typeHandler alias that does not resolve throws BuilderException. Any other failure is `build()`'s IllegalStateException. |
| SqlSourceBuilders.CursorWithoutResultMapRejected | src/main/java/org/apache/ibatis/builder/SqlSourceBuilder.java:205-283 | A CURSOR placeholder with no javaType and no resultMap, whose type is not inferred otherwise, throws IllegalStateException from `build()`. |
| SqlSourceBuilders.MappingsFor | src/main/java/org/apache/ibatis/builder/SqlSourceBuilder.java:146 | On success there is one mapping per placeholder, each built from that placeholder's content. |
| SqlSourceBuilders.MappingsForFirstFailure | src/main/java/org/apache/ibatis/builder/SqlSourceBuilder.java:146 | The exception is that of the first failing placeholder, and every earlier placeholder is mapped. |
| SqlSourceBuilders.MappingsForPrefixFails | src/main/java/org/apache/ibatis/builder/SqlSourceBuilder.java:146 | Once a prefix of the placeholders fails, the whole parse fails with the same exception. |
| SqlSourceBuilders.ParameterMappingTokenHandler.constructor | src/main/java/org/apache/ibatis/builder/SqlSourceBuilder.java:117-122 | A new handler has no mappings. |
| SqlSourceBuilders.ParameterMappingTokenHandler.BuildParameterMapping | src/main/java/org/apache/ibatis/builder/SqlSourceBuilder.java:162-284 | The attribute loop computes exactly the specified mapping or exception. |
| SqlSourceBuilders.ParameterMappingTokenHandler.MappingsPrefixStops | src/main/java/org/apache/ibatis/builder/SqlSourceBuilder.java:241-275 | An exception in the attribute loop ends the loop with that exception. |
| SqlSourceBuilders.ParameterMappingTokenHandler.HandleToken | src/main/java/org/apache/ibatis/builder/SqlSourceBuilder.java:138-149 | `handleToken` appends exactly one mapping and returns "?". An exception leaves the list as it was. |
| SqlSourceBuilders.FirstPlaceholder | src/main/java/org/apache/ibatis/builder/SqlSourceBuilder.java:60 | The first complete placeholder lies inside the text, with its `}` after its `#{`. |
| SqlSourceBuilders.SqlSourceBuilder.constructor | src/main/java/org/apache/ibatis/builder/SqlSourceBuilder.java:42-44 | The builder keeps the configuration and its shrink setting. |
| SqlSourceBuilders.SqlSourceBuilder.Parse | src/main/java/org/apache/ibatis/builder/SqlSourceBuilder.java:54-71 | `parse` scans the text, shrunk first exactly when the configuration asks for it, and returns the specified source or exception. |
| SqlSourceBuilders.SqlSourceBuilder.OneMappingPerPlaceholder | src/main/java/org/apache/ibatis/builder/SqlSourceBuilder.java:138-149 | There is one mapping per handled placeholder, in placeholder order, each built from that placeholder's content. |
| SqlSourceBuilders.SqlSourceBuilder.NoPlaceholderUnchanged | src/main/java/org/apache/ibatis/builder/SqlSourceBuilder.java:60-70 | Text without `#{` passes through unchanged (after shrinking, if enabled) and yields no mappings. |
| SqlSourceBuilders.SqlSourceBuilder.NullSql | src/main/java/org/apache/ibatis/builder/SqlSourceBuilder.java:64-68 | A null statement gives an empty source when not shrinking, and NullPointerException when shrinking. |
| SqlSourceBuilders.SqlSourceBuilder.SourceOfParsed | src/main/java/org/apache/ibatis/builder/SqlSourceBuilder.java:54-71 | A successful parse has the parser's output as its SQL and one mapping per handler call. |
| SqlSourceBuilders.SqlSourceBuilder.FirstPlaceholderMarked | src/main/java/org/apache/ibatis/builder/SqlSourceBuilder.java:138-149 | In a text without backslashes, the first complete placeholder becomes `?`, right after the text before it. |
| SqlSourceBuilders.SqlSourceBuilder.FirstPlaceholderMapped | src/main/java/org/apache/ibatis/builder/SqlSourceBuilder.java:138-149 | In a text without backslashes, the first mapping is built from the content of the first complete placeholder. |
| ParamNameResolvers.NamesOf | src/main/java/org/apache/ibatis/reflection/ParamNameResolver.java:79-127 | There are at most as many names as parameters, each keyed by a parameter index. |
| ParamNameResolvers.NamesOfSnoc | src/main/java/org/apache/ibatis/reflection/ParamNameResolver.java:82-126 | One more parameter adds one name, unless it is a RowBounds or ResultHandler. |
| ParamNameResolvers.NamesByIndex | src/main/java/org/apache/ibatis/reflection/ParamNameResolver.java:97-126 | Names are keyed by original index in ascending order. A default name counts only the named parameters before it, so default names run "0", "1", ... |
| ParamNameResolvers.NamedIffRegular | src/main/java/org/apache/ibatis/reflection/ParamNameResolver.java:79-85 | Exactly the parameters that are not RowBounds or ResultHandler get a name. |
| ParamNameResolvers.FindParamAnnotation | src/main/java/org/apache/ibatis/reflection/ParamNameResolver.java:87-94 | The inner loop finds the value of the first @Param annotation. |
| ParamNameResolvers.ResolveNames | src/main/java/org/apache/ibatis/reflection/ParamNameResolver.java:75-128 | The constructor's loop computes exactly the specified names, and sets the annotation flag exactly when some named parameter carries @Param. |
| ParamNameResolvers.NameFor | src/main/java/org/apache/ibatis/reflection/ParamNameResolver.java:86-122 | The name is the @Param value, else the actual name when enabled and known, else the number of names so far. Whether it came from @Param is reported too. |
| ParamNameResolvers.AnyParamAnnotationSnoc | src/main/java/org/apache/ibatis/reflection/ParamNameResolver.java:88-89 | The flag is raised by a later parameter exactly when that parameter is regular and annotated. |
| ParamNameResolvers.GenericNameInjective | src/main/java/org/apache/ibatis/reflection/ParamNameResolver.java:173 | Different positions give different `param` names. |
| ParamNameResolvers.WrapToMapIfCollection | src/main/java/org/apache/ibatis/reflection/ParamNameResolver.java:193-215 | A Collection becomes a map under "collection" (plus "list" for a List), and an array a map under "array". Either is also stored under the given name, and the map is a strict ParamMap. Anything else is returned as it is. |
| ParamNameResolvers.ParamMapKeys | src/main/java/org/apache/ibatis/reflection/ParamNameResolver.java:167-181 | The ParamMap's keys are the declared names and the generic names that are not declared. |
| ParamNameResolvers.ParamMapNames | src/main/java/org/apache/ibatis/reflection/ParamNameResolver.java:171 | A declared name that is not declared again later holds its own argument. |
| ParamNameResolvers.ParamMapGenerics | src/main/java/org/apache/ibatis/reflection/ParamNameResolver.java:173-177 | Each generic name "param{i}" that is not declared holds the argument of the i-th name. |
| ParamNameResolvers.LoneCollectionKeepsName | src/main/java/org/apache/ibatis/reflection/ParamNameResolver.java:164-166 | With actual names in use, a lone unannotated collection or array is also stored under its name. |
| ParamNameResolvers.LoneListNameLost | src/main/java/org/apache/ibatis/reflection/ParamNameResolver.java:166 | As written, a lone list after a RowBounds is not stored under its name, though the corrected version stores it. |
| ParamNameResolvers.ParamNameResolver.constructor | src/main/java/org/apache/ibatis/reflection/ParamNameResolver.java:65-129 | The names and the annotation flag are those the name-assignment loop specifies. |
| ParamNameResolvers.ParamNameResolver.GetNames | src/main/java/org/apache/ibatis/reflection/ParamNameResolver.java:144-146 | `getNames` lists the names in ascending argument-index order. |
| ParamNameResolvers.ParamNameResolver.GetNamedParams | src/main/java/org/apache/ibatis/reflection/ParamNameResolver.java:160-182 | See the note below the table. |
| MapperBuilderAssistants.ValueOrDefault | src/main/java/org/apache/ibatis/builder/MapperBuilderAssistant.java:447-449 | The value unless it is null, else the default. |
| MapperBuilderAssistants.ApplyNamespace | src/main/java/org/apache/ibatis/builder/MapperBuilderAssistant.java:114-133 | See the note below the table. |
| MapperBuilderAssistants.ApplyNamespaceShape | src/main/java/org/apache/ibatis/builder/MapperBuilderAssistant.java:118-132 | A qualified element name starts with the namespace and a dot, and a qualified reference contains a dot. |
| MapperBuilderAssistants.ApplyNamespaceIdempotent | src/main/java/org/apache/ibatis/builder/MapperBuilderAssistant.java:114-133 | Qualifying a name twice gives the same result as qualifying it once. |
| MapperBuilderAssistants.WithoutAllMembers | src/main/java/org/apache/ibatis/builder/MapperBuilderAssistant.java:249 | `removeAll` keeps exactly the parent mappings that equal none of the child's. A mapping equals itself and any mapping with the same non-null property. |
| MapperBuilderAssistants.WithoutConstructorsMembers | src/main/java/org/apache/ibatis/builder/MapperBuilderAssistant.java:259 | `removeIf` keeps exactly the mappings without the CONSTRUCTOR flag. |
| MapperBuilderAssistants.InheritedMembers | src/main/java/org/apache/ibatis/builder/MapperBuilderAssistant.java:248-260 | A child inherits exactly the parent mappings that equal none of its own, so a child mapping overrides the parent's mapping of the same property. When it declares a constructor, the parent's constructor mappings are dropped too. |
| MapperBuilderAssistants.InheritedPropertiesOverridden | src/main/java/org/apache/ibatis/builder/MapperBuilderAssistant.java:248-260 | No inherited mapping has a property that one of the child's mappings also has. |
| MapperBuilderAssistants.RemoveAll | src/main/java/org/apache/ibatis/builder/MapperBuilderAssistant.java:249 | The loop computes `removeAll`. |
| MapperBuilderAssistants.Contains | src/main/java/org/apache/ibatis/builder/MapperBuilderAssistant.java:249 | The scan that `removeAll` makes for each parent mapping finds an element of the child's list that the mapping equals. |
| MapperBuilderAssistants.RemoveConstructors | src/main/java/org/apache/ibatis/builder/MapperBuilderAssistant.java:259 | The loop computes `removeIf` on the CONSTRUCTOR flag. |
| MapperBuilderAssistants.FindConstructor | src/main/java/org/apache/ibatis/builder/MapperBuilderAssistant.java:251-257 | The loop finds out whether some child mapping is a constructor mapping. |
| MapperBuilderAssistants.ExtendMappings | src/main/java/org/apache/ibatis/builder/MapperBuilderAssistant.java:247-261 | The merged list is the child's mappings followed by those it inherits. |
| MapperBuilderAssistants.TokenSetSnoc | src/main/java/org/apache/ibatis/builder/MapperBuilderAssistant.java:650 | Adding a token to the column set adds exactly that column. |
| MapperBuilderAssistants.ColumnNamesClean | src/main/java/org/apache/ibatis/builder/MapperBuilderAssistant.java:646-651 | With a comma, every column is non-empty and free of braces, commas and spaces. |
| MapperBuilderAssistants.ParseMultipleColumnNames | src/main/java/org/apache/ibatis/builder/MapperBuilderAssistant.java:643-657 | Null gives no columns. A name without a comma gives itself. Otherwise the result is its tokens split on "{}, ". |
| MapperBuilderAssistants.PairsShape | src/main/java/org/apache/ibatis/builder/MapperBuilderAssistant.java:663-669 | Pairing succeeds exactly for an even number of tokens, taking them in order as property and column. An odd token out throws NoSuchElementException. |
| MapperBuilderAssistants.PrependStep | src/main/java/org/apache/ibatis/builder/MapperBuilderAssistant.java:664-668 | Each round consumes two tokens as one composite column. |
| MapperBuilderAssistants.ParseCompositeColumnName | src/main/java/org/apache/ibatis/builder/MapperBuilderAssistant.java:659-672 | Only a name containing '=' or ',' gives columns, paired from its tokens split on "{}=, ". |
| MapperBuilderAssistants.Registry.constructor | src/main/java/org/apache/ibatis/builder/MapperBuilderAssistant.java:195 | The configuration's registries start with the given caches and result maps, and no statements. |
| MapperBuilderAssistants.MapperBuilderAssistant.constructor | src/main/java/org/apache/ibatis/builder/MapperBuilderAssistant.java:90-92 | A new assistant has no namespace, no current cache and no unresolved cache-ref. |
| MapperBuilderAssistants.MapperBuilderAssistant.SetCurrentNamespace | src/main/java/org/apache/ibatis/builder/MapperBuilderAssistant.java:98-112 | A null namespace, or one different from the namespace already set, throws BuilderException and changes nothing. The same namespace again is accepted. |
| MapperBuilderAssistants.MapperBuilderAssistant.UseCacheRef | src/main/java/org/apache/ibatis/builder/MapperBuilderAssistant.java:140-162 | A null namespace throws BuilderException. A missing cache throws IncompleteElementException and leaves the flag raised. Success sets the current cache and lowers the flag. |
| MapperBuilderAssistants.MapperBuilderAssistant.UseNewCache | src/main/java/org/apache/ibatis/builder/MapperBuilderAssistant.java:175-200 | The new cache is registered under the namespace and becomes current. It is a PerpetualCache with LRU eviction unless other classes are given. A namespace that already has a cache throws IllegalArgumentException, and nothing changes. |
| MapperBuilderAssistants.MapperBuilderAssistant.AddMappedStatement | src/main/java/org/apache/ibatis/builder/MapperBuilderAssistant.java:327-390 | An unresolved cache-ref throws IncompleteElementException. Otherwise the statement is registered under its qualified id with the current cache and the given flush and use-cache flags. They are primitive booleans, so `valueOrDefault` never falls back to its defaults. An id that is already registered throws IllegalArgumentException, and nothing changes. |
| MapperBuilderAssistants.MapperBuilderAssistant.AddResultMap | src/main/java/org/apache/ibatis/builder/MapperBuilderAssistant.java:233-268 | The id and the parent reference are qualified. An unknown parent throws IncompleteElementException. Otherwise the child gets its own mappings followed by those it inherits. An id that is already registered then throws IllegalArgumentException, and nothing changes. |
| SqlSessions.OneResult | src/main/java/org/apache/ibatis/session/defaults/DefaultSqlSession.java:106-118 | One row gives that row, no rows give null, and more than one throws TooManyResultsException. |
| SqlSessions.OneResultMeaning | src/main/java/org/apache/ibatis/session/defaults/DefaultSqlSession.java:106-118 | `selectOne` succeeds exactly for at most one row, and a non-null answer is the only row. |
| SqlSessions.StrictGet | src/main/java/org/apache/ibatis/session/defaults/DefaultSqlSession.java:533-540 | `StrictMap.get` throws BindingException for an absent key, and otherwise returns the stored value. |
| SqlSessions.StrictGetAfterPut | src/main/java/org/apache/ibatis/session/defaults/DefaultSqlSession.java:533-540 | A strict map answers with what was last stored under a key, and still refuses other absent keys. |
| SqlSessions.ClosedBeforeFailure | src/main/java/org/apache/ibatis/session/defaults/DefaultSqlSession.java:452-463 | Every cursor before the counted one closes, and the cursor at the count, if there is one, fails to close. |
| SqlSessions.DefaultSqlSession.constructor | src/main/java/org/apache/ibatis/session/defaults/DefaultSqlSession.java:77-82 | A new session is clean and has no cursor list. |
| SqlSessions.DefaultSqlSession.Manual | src/main/java/org/apache/ibatis/session/defaults/DefaultSqlSession.java:84-86 | The two-argument constructor gives a session without auto-commit. |
| SqlSessions.DefaultSqlSession.CommitOrRollbackRequired | src/main/java/org/apache/ibatis/session/defaults/DefaultSqlSession.java:516-518 | It is true exactly when forced, or when the session is dirty and not auto-committing. |
| SqlSessions.DefaultSqlSession.SelectList | src/main/java/org/apache/ibatis/session/defaults/DefaultSqlSession.java:285-308 | An unknown statement id throws, wrapped. Otherwise one query is sent to the executor with the parameter wrapped if it is a collection. Its failure is wrapped in a PersistenceException. |
| SqlSessions.DefaultSqlSession.SelectOne | src/main/java/org/apache/ibatis/session/defaults/DefaultSqlSession.java:101-119 | The list query with default bounds is checked for cardinality, and TooManyResultsException is not wrapped. |
| SqlSessions.DefaultSqlSession.Update | src/main/java/org/apache/ibatis/session/defaults/DefaultSqlSession.java:352-368 | The session becomes dirty before the executor is called, even if the call fails. A failure is wrapped. |
| SqlSessions.DefaultSqlSession.Insert | src/main/java/org/apache/ibatis/session/defaults/DefaultSqlSession.java:341-344 | `insert` behaves as `update`. |
| SqlSessions.DefaultSqlSession.Delete | src/main/java/org/apache/ibatis/session/defaults/DefaultSqlSession.java:376-380 | `delete` behaves as `update`. |
| SqlSessions.DefaultSqlSession.Commit | src/main/java/org/apache/ibatis/session/defaults/DefaultSqlSession.java:388-399 | The executor is told whether a commit is required. The session is clean afterwards only if the executor succeeded. |
| SqlSessions.DefaultSqlSession.Rollback | src/main/java/org/apache/ibatis/session/defaults/DefaultSqlSession.java:407-418 | It follows the same protocol as `commit`. |
| SqlSessions.DefaultSqlSession.RegisterCursor | src/main/java/org/apache/ibatis/session/defaults/DefaultSqlSession.java:499-504 | The list is created on first use, and cursors are appended in registration order. |
| SqlSessions.DefaultSqlSession.CloseCursors | src/main/java/org/apache/ibatis/session/defaults/DefaultSqlSession.java:452-463 | Cursors are closed in order until the first failure. The list is emptied only when all of them closed. An IOException is wrapped, and any other failure propagates as it is. |
| SqlSessions.DefaultSqlSession.Close | src/main/java/org/apache/ibatis/session/defaults/DefaultSqlSession.java:439-450 | The executor is closed with `isCommitOrRollbackRequired(false)`. Then the cursors are closed, and the session becomes clean once they are. With no cursors, the cursor list is left as it was. A cursor's IOException is wrapped, and any other failure propagates as it is. |
| DynamicContexts.ContextGet | src/main/java/org/apache/ibatis/scripting/xmltags/DynamicContext.java:133-150 | See the note below the table. |
| DynamicContexts.PropertyOf | src/main/java/org/apache/ibatis/scripting/xmltags/DynamicContext.java:159-176 | The map's own answer is used when the name is bound or the answer is non-null. Otherwise the Map-valued `_parameter`'s own `get` answers, and else null. The only exception is a ParamMap's BindingException. |
| DynamicContexts.BoundNameResolves | src/main/java/org/apache/ibatis/scripting/xmltags/DynamicContext.java:85-87 | A name just bound resolves to its value, whatever the parameter object says. |
| DynamicContexts.MapParameterLookup | src/main/java/org/apache/ibatis/scripting/xmltags/DynamicContext.java:168-173 | With a plain Map parameter, an unbound name is looked up in that map, and an absent name reads null. |
| DynamicContexts.ParamMapParameterLookup | src/main/java/org/apache/ibatis/scripting/xmltags/DynamicContext.java:168-173 | With a ParamMap parameter, an unbound name is that map's entry, and a name it lacks throws BindingException instead of reading null. |
| DynamicContexts.ScalarParameterAnyName | src/main/java/org/apache/ibatis/scripting/xmltags/DynamicContext.java:141-145 | A parameter with a type handler answers for every name it has no property for. |
| DynamicContexts.TrimOfClean | src/main/java/org/apache/ibatis/scripting/xmltags/DynamicContext.java:102 | A string that neither starts nor ends with white space is its own trim. |
| DynamicContexts.TrimIdempotent | src/main/java/org/apache/ibatis/scripting/xmltags/DynamicContext.java:102 | Trimming twice is the same as trimming once. |
| DynamicContexts.JoinEnds | src/main/java/org/apache/ibatis/scripting/xmltags/DynamicContext.java:52 | The joined text starts with the first fragment and ends with the last one. |
| DynamicContexts.SqlOfCleanEnds | src/main/java/org/apache/ibatis/scripting/xmltags/DynamicContext.java:101-103 | When the outer fragments start and end visibly, `getSql` is the fragments joined by single spaces. |
| DynamicContexts.SqlOfNothing | src/main/java/org/apache/ibatis/scripting/xmltags/DynamicContext.java:101-103 | With no fragments, `getSql` is "". |
| DynamicContexts.DynamicContext.constructor | src/main/java/org/apache/ibatis/scripting/xmltags/DynamicContext.java:64-79 | The bindings hold `_parameter` and `_databaseId`. A parameter that is neither null nor a Map gets a meta object, with the type-handler fallback. The counter starts at 0. |
| DynamicContexts.DynamicContext.Bind | src/main/java/org/apache/ibatis/scripting/xmltags/DynamicContext.java:85-87 | `bind` overwrites any earlier binding, the name then resolves to the value, and nothing else changes. |
| DynamicContexts.DynamicContext.SetProperty | src/main/java/org/apache/ibatis/scripting/xmltags/DynamicContext.java:179-182 | The value is stored under the name and read back by `getProperty`. |
| DynamicContexts.DynamicContext.AppendSql | src/main/java/org/apache/ibatis/scripting/xmltags/DynamicContext.java:93-95 | One fragment is added at the end. The bindings and counter are unchanged. |
| DynamicContexts.DynamicContext.GetUniqueNumber | src/main/java/org/apache/ibatis/scripting/xmltags/DynamicContext.java:109-111 | It returns the counter, which then advances by one (wrapping as a Java `int`). So successive calls give 0, 1, 2, ... |
| StaticTextSqlNodes.StaticTextSqlNode.constructor | src/main/java/org/apache/ibatis/scripting/xmltags/StaticTextSqlNode.java:28-30 | The text is fixed at construction. |
| StaticTextSqlNodes.StaticTextSqlNode.Apply | src/main/java/org/apache/ibatis/scripting/xmltags/StaticTextSqlNode.java:32-38 | `apply` always returns true and appends exactly its text as one fragment. Bindings and counter are unchanged. |
| InterceptorChains.WrappedAppend | src/main/java/org/apache/ibatis/plugin/InterceptorChain.java:53-56 | Wrapping by two lists in a row is wrapping by their concatenation. |
| InterceptorChains.WrappedLast | src/main/java/org/apache/ibatis/plugin/InterceptorChain.java:65-67 | An interceptor added last wraps the result of all the earlier ones. |
| InterceptorChains.PassThroughLeavesTarget | src/main/java/org/apache/ibatis/plugin/InterceptorChain.java:47-58 | Plugins that pass the target through unwrapped leave it as it was. |
| InterceptorChains.InterceptorChain.constructor | src/main/java/org/apache/ibatis/plugin/InterceptorChain.java:31 | A new chain has no interceptors, so `pluginAll` returns its target. |
| InterceptorChains.InterceptorChain.PluginAll | src/main/java/org/apache/ibatis/plugin/InterceptorChain.java:47-58 | Each interceptor, in registration order, wraps the result of the one before it. |
| InterceptorChains.InterceptorChain.AddInterceptor | src/main/java/org/apache/ibatis/plugin/InterceptorChain.java:65-67 | The new interceptor goes last, and nothing else changes. |

Notes on the rows whose contracts are too long for one cell:
- **BaseExecutors.BaseExecutor.Query:**
  - A closed executor throws and changes nothing.
  - A hit returns the cached list without calling `doQuery`.
  - Hitting an in-flight placeholder throws ClassCastException.
  - A miss calls `doQuery`. It caches the rows on success and no entry on failure.
  - The set of in-flight keys is the same afterwards. The exception is a query with a result handler, which skips the lookup and also clears its key's mark.
  - After a successful top-level query, the deferred loads have been performed. Ghost results name the queue that was drained and the local cache it read. The queue extends the one before the query, and that cache holds no placeholder and holds the query's own list under its key. The writes are the writes made until then, followed by those loads in queue order. The queue is empty afterwards, and a statement-scoped cache is emptied.
  - Any other query only adds to the queue of deferred loads.
  - A top-level flushing query clears the local cache before its lookup. Afterwards, no key from before the query is left unless the query itself or one of its nested queries cached it again.
- **CachingExecutors.CachingExecutor.Query:** A flushing statement marks its cache for clearing. Only a statement with a cache, `useCache` set and no result handler reads the second level. That read does three things:
  - it refuses OUT parameters;
  - it returns a hit without touching the delegate;
  - on a miss, it records the key among the layer's missed keys and stages the delegate's list.
- **ParamNameResolvers.ParamNameResolver.GetNamedParams:** There are three cases:
  - null when there are no arguments or no names;
  - the lone argument, collection-wrapped, for one unannotated name; it is stored under its own name, the corrected lookup of the finding below;
  - otherwise the ParamMap.

  When there are no names or the first name belongs to argument 0, the result is also the as-written `NamedParamsAsWritten`.
- **MapperBuilderAssistants.ApplyNamespace:**
  - Null stays null.
  - A dotted reference is kept.
  - An element name already prefixed by the namespace is kept. Any other dotted element name throws BuilderException.
  - The rest are prefixed with the namespace and a dot.
- **DynamicContexts.ContextGet:**
  - A bound name answers with its binding, even a null one.
  - Without a meta object, the answer is null.
  - With the type-handler fallback and no getter, the answer is the parameter object.
  - Otherwise the answer is the parameter's property.

## Left out

- I/O, JDBC and reflection are not modelled:
  - ErrorContext bookkeeping and logging;
  - `getConnection`, `ConnectionLogger`, `applyTransactionTimeout` and `closeStatement`;
  - the dynamic proxies of Plugin;
  - MetaObject and MetaClass;
  - OGNL.

  They appear only through the answers the modelled code takes from them.
- BlockingCache is not modelled, because its purpose is cross-thread blocking. Concurrency is not modelled anywhere. The deferred-load `ConcurrentLinkedQueue` is a plain FIFO sequence.
- IfSqlNode, SqlSessionFactoryBuilder, ResultMapResolver, the annotations and the tests are not modelled. They are either outside the core or hold no logic of their own.
- DefaultSqlSession:
  - `selectMap`, `selectCursor`, `select` with a result handler, `getMapper`, `getConnection`, `flushStatements` and `clearCache` are not modelled. They depend on result handlers, proxies and connections that are not part of this model.
  - The session's executor is an abstract call log fed with outcome parameters, not the executor classes of this model.
  - Configuration.getMappedStatement is a lookup that gives IllegalArgumentException for an unknown id.
  - ExceptionFactory's wrapping is one PersistenceException around the cause.
- BaseExecutor: `handleLocallyCachedOutputParameters`, which copies cached OUT parameters of a callable statement into the parameter object through MetaObject, is not modelled. The callable-statement write of the parameter into the output-parameter cache is kept.
- BoundSql.java, PropertyTokenizer and MetaObject are not part of this model:
  - `hasAdditionalParameter` tests the path's first segment, the part before the first '.' or '['.
  - `getAdditionalParameter` reads a single-segment path as the map entry. A longer path is read by the configuration's property access, starting from the additional-parameter map.
- MapperMethod.ParamMap is not part of this model. It is a `MapObj` marked `strict`, whose `get` throws BindingException for an absent key. The flag takes part in `Obj` equality, so a ParamMap and a HashMap with the same entries compare unequal, where Java's `Map.equals` says they are equal.
- BaseExecutor: `doQueryCursor`'s cursor and the result extractor's conversion are not modelled; they are opaque values.
- CachingExecutor's four-argument `query` is not modelled separately. It is `CreateCacheKey` followed by `Query`, as in BaseExecutor's `QueryWithNewKey`.
- CachingExecutors.CachingExecutor.Query: for a query that bypasses the second level, it states only that a closed delegate throws. What the delegate does then is `BaseExecutors.BaseExecutor.Query`'s contract, which is not restated.
- CacheKeys.CacheKey.Update: requires the update list to stay below Integer.MAX_VALUE elements, which a Java list cannot exceed. `BaseExecutors.BaseExecutor.QueryWithNewKey` and `CachingExecutors.CachingExecutor.CreateCacheKey` carry the matching bound on the number of parameter mappings.
- CacheKeys.CacheKey.Clone: states that the copy has the same value and is fresh. It does not model `CloneNotSupportedException`, which Object.clone cannot throw for a Cloneable class.
- CacheKey's `toString` is not modelled, because it is only used for logging.
- `LruCache.getId` and `getSize` and `TransactionalCache.getId` and `getSize` delegate unchanged and carry no contract.
- TokenParsers.GenericTokenParser.constructor: requires non-empty open and close tokens whose last character is not a backslash. Every caller in the repository passes "#{", "${" or "}". With other tokens, the Java loop can fail to advance or copy a range of negative length.
- SqlSourceBuilder:
  - The property-type inference of `buildParameterMapping` (MetaObject getter types, type-handler lookup, MetaClass) is given by functions of the configuration.
  - BaseBuilder.java is not part of this model. Its `resolveClass`, `resolveJdbcType`, `resolveParameterMode` and `resolveTypeHandler` are partial functions of the configuration, and an alias they cannot resolve throws BuilderException. Integer.valueOf is a partial function too, and its failure is NumberFormatException.
  - ParameterMapping.java and TypeHandlerRegistry are not part of this model. `build()`'s default type handler is a function of the java and JDBC types. Its checks are the two that decide success: a ResultSet needs a result map, and anything else needs a type handler.
  - StaticSqlSource is its SQL text and mapping list.
- ParamNameResolver: `getActualParamName` is each parameter's recorded name. `isSpecialParameter` is a flag on each parameter.
- MapperBuilderAssistant:
  - `addParameterMap`, `buildParameterMapping`, `buildDiscriminator`, `buildResultMapping` and the statement-level result and parameter map lookups are not modelled. They are builder plumbing around reflection and type resolution.
  - Of `addMappedStatement`, only the cache-ref guard, the id, the command type, the flush and use-cache defaults and the attached cache are modelled.
  - CacheBuilder's decorator chain is reduced to the implementation and eviction class names.
- MapperBuilderAssistants.MapperBuilderAssistant.UseNewCache: requires a namespace to be set. With none, the outcome depends on CacheBuilder and Configuration.addCache, which are not part of this model.
- ParamNameResolvers.ParamNameResolver.GetNamedParams: its precondition that the arguments match the declared parameter count stands for Java's reflective call, which never passes another number.
- ParamNameResolvers.ParamNameResolver.GetNamedParams: stores a lone argument under `names[0].1`, the corrected lookup of the finding below, rather than under `names.get(0)` as written. The two agree when the first name belongs to argument 0, which the contract also states. `NamedParamsAsWritten` models the code as written.
- MapperBuilderAssistants.SameMapping: ResultMapping.java is not part of this model. ResultMapping.equals is taken to hold for the same object, and for two mappings with the same non-null property. Object identity is approximated by value equality, so two distinct mappings with equal fields and no property count as equal.
- MapperBuilderAssistants.MapperBuilderAssistant.AddMappedStatement, MapperBuilderAssistants.MapperBuilderAssistant.AddResultMap, MapperBuilderAssistants.MapperBuilderAssistant.UseNewCache: Configuration.java and its StrictMap are not part of this model. Each registry refuses a key it already holds with IllegalArgumentException. StrictMap also registers each dotted key under its short name, or marks that short name ambiguous. Those short-name entries are not modelled, so a full key that clashes with another entry's short name is not refused.
- CachingExecutors.CachingExecutor.constructor: `delegate.setExecutorWrapper(this)` is not modelled, and neither is BaseExecutor's `wrapper` field. The wrapper is only passed on to the result-handling code of the concrete executors, which is not part of this model.
- DynamicContext:
  - OGNL's property-access registration (the static block) is not modelled.
  - `getBindings`, `get` and `getProperty` are functions without a contract of their own. Their meaning is stated by `DynamicContexts.ContextGet` and `DynamicContexts.PropertyOf`.
- InterceptorChain: `Interceptor.plugin` is a function of the target. `getInterceptors` returns the sequence itself, which is a value, so it stands for the read-only view.

## Findings

| source | as written | input that shows it | evidently intended | confidence | as-written member | corrected member |
|---|---|---|---|---|---|---|
| src/main/java/org/apache/ibatis/reflection/ParamNameResolver.java:166 | The lone argument's actual name is looked up with `names.get(0)`, under argument index 0. | A mapper method `(RowBounds rb, List ids)` with actual names in use: the only name is "ids", keyed by index 1. `get(0)` is null, so the list is stored under "collection" and "list" but not under "ids". | The lone argument should be stored under its own name, `names.get(names.firstKey())`, wherever it sits. | medium, not executed | ParamNameResolvers.NamedParamsAsWritten, ParamNameResolvers.LoneListNameLost | ParamNameResolvers.NamedParams, ParamNameResolvers.LoneCollectionKeepsName |
