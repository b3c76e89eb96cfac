/**
 * TransactionalCache: the per-session staging area in front of a shared
 * cache.  Puts are held back until commit, a clear is remembered as a flag
 * that hides the shared entries, and keys looked up without success are
 * remembered so that commit can record them (as null markers) and
 * rollback can release them.
 */
module TransactionalCaches {
  import opened Lang
  import opened Caches

  /** The null markers commit writes for looked-up keys that were not staged. */
  function NullMarkers<K>(missed: set<K>, staged: map<K, Obj>): map<K, Obj> {
    map k | k in missed && k !in staged :: Null
  }

  /** The shared cache's entries after a commit of the given staging state. */
  function Committed<K>(base: map<K, Obj>, clearOnCommit: bool, staged: map<K, Obj>, missed: set<K>): map<K, Obj> {
    (if clearOnCommit then map[] else base) + staged + NullMarkers(missed, staged)
  }

  /** The shared cache's entries after a rollback: every missed key is removed. */
  function RolledBack<K>(base: map<K, Obj>, missed: set<K>): map<K, Obj> {
    base - missed
  }

  /** A staged put is what the shared cache holds after commit. */
  lemma {:induction false} CommitPublishesStaged<K>(base: map<K, Obj>, clearOnCommit: bool, staged: map<K, Obj>, missed: set<K>, k: K)
    requires k in staged
    ensures Lookup(Committed(base, clearOnCommit, staged, missed), k) == staged[k]
  {
  }

  /** A missed key that was never staged is stored as a null marker on commit. */
  lemma {:induction false} CommitMarksMisses<K>(base: map<K, Obj>, clearOnCommit: bool, staged: map<K, Obj>, missed: set<K>, k: K)
    requires k in missed && k !in staged
    ensures k in Committed(base, clearOnCommit, staged, missed)
    ensures Committed(base, clearOnCommit, staged, missed)[k] == Null
  {
  }

  /** Keys neither staged nor missed keep their entry, unless a clear is pending. */
  lemma {:induction false} CommitKeepsOthers<K>(base: map<K, Obj>, clearOnCommit: bool, staged: map<K, Obj>, missed: set<K>, k: K)
    requires k !in staged && k !in missed
    ensures clearOnCommit ==> k !in Committed(base, clearOnCommit, staged, missed)
    ensures !clearOnCommit ==> Lookup(Committed(base, clearOnCommit, staged, missed), k) == Lookup(base, k)
  {
  }

  /** Rollback removes exactly the missed keys and never publishes a staged put. */
  lemma {:induction false} RollbackReleasesMisses<K>(base: map<K, Obj>, missed: set<K>, k: K)
    ensures k in missed ==> k !in RolledBack(base, missed)
    ensures k !in missed ==> Lookup(RolledBack(base, missed), k) == Lookup(base, k)
  {
  }

  class TransactionalCache<K(==)> {
    const delegate: Cache<K>
    var clearOnCommit: bool
    var entriesToAddOnCommit: map<K, Obj>
    var entriesMissedInCache: set<K>

    /** Nothing staged, nothing missed, no clear pending. */
    ghost predicate IsReset()
      reads this
    {
      !clearOnCommit && entriesToAddOnCommit == map[] && entriesMissedInCache == {}
    }

    constructor (delegate: Cache<K>)
      ensures this.delegate == delegate && IsReset()
    {
      this.delegate := delegate;
      clearOnCommit := false;
      entriesToAddOnCommit := map[];
      entriesMissedInCache := {};
    }

    function GetId(): string {
      delegate.id
    }

    function GetSize(): nat
      reads delegate
    {
      delegate.GetSize()
    }

    /**
     * Looks the key up in the shared cache, remembers it when the answer is
     * null, and answers null while a clear is pending.
     */
    method GetObject(k: K) returns (v: Obj)
      modifies this
      ensures clearOnCommit == old(clearOnCommit) && entriesToAddOnCommit == old(entriesToAddOnCommit)
      ensures entriesMissedInCache == old(entriesMissedInCache) + (if Lookup(delegate.entries, k) == Null then {k} else {})
      ensures v == if clearOnCommit then Null else Lookup(delegate.entries, k)
    {
      var value := delegate.GetObject(k);
      if value == Null {
        entriesMissedInCache := entriesMissedInCache + {k};
      }
      if clearOnCommit {
        return Null;
      } else {
        return value;
      }
    }

    /** Stages a put; the shared cache is untouched until commit. */
    method PutObject(k: K, v: Obj)
      modifies this
      ensures entriesToAddOnCommit == old(entriesToAddOnCommit)[k := v]
      ensures clearOnCommit == old(clearOnCommit) && entriesMissedInCache == old(entriesMissedInCache)
    {
      entriesToAddOnCommit := entriesToAddOnCommit[k := v];
    }

    /** Removal is not staged: it always answers null and changes nothing. */
    method RemoveObject(k: K) returns (v: Obj)
      ensures v == Null
    {
      return Null;
    }

    /** Remembers a clear for commit and drops everything staged so far. */
    method Clear()
      modifies this
      ensures clearOnCommit && entriesToAddOnCommit == map[]
      ensures entriesMissedInCache == old(entriesMissedInCache)
    {
      clearOnCommit := true;
      entriesToAddOnCommit := map[];
    }

    method Commit()
      modifies this, delegate
      ensures delegate.entries == Committed(old(delegate.entries), old(clearOnCommit), old(entriesToAddOnCommit), old(entriesMissedInCache))
      ensures IsReset()
    {
      if clearOnCommit {
        delegate.Clear();
      }
      FlushPendingEntries();
      Reset();
    }

    method Rollback()
      modifies this, delegate
      ensures delegate.entries == RolledBack(old(delegate.entries), old(entriesMissedInCache))
      ensures IsReset()
    {
      UnlockMissedEntries();
      Reset();
    }

    method Reset()
      modifies this
      ensures IsReset()
    {
      clearOnCommit := false;
      entriesToAddOnCommit := map[];
      entriesMissedInCache := {};
    }

    /** Writes every staged entry, then a null marker for every missed key that was not staged. */
    method FlushPendingEntries()
      modifies delegate
      ensures delegate.entries == old(delegate.entries) + entriesToAddOnCommit + NullMarkers(entriesMissedInCache, entriesToAddOnCommit)
    {
      WriteStaged();
      WriteNullMarkers();
    }

    /** Writes every staged entry into the shared cache. */
    method WriteStaged()
      modifies delegate
      ensures delegate.entries == old(delegate.entries) + entriesToAddOnCommit
    {
      var todo := entriesToAddOnCommit.Keys;
      while todo != {}
        invariant todo <= entriesToAddOnCommit.Keys
        invariant delegate.entries == old(delegate.entries) + map k | k in entriesToAddOnCommit.Keys - todo :: entriesToAddOnCommit[k]
        decreases todo
      {
        var k :| k in todo;
        delegate.PutObject(k, entriesToAddOnCommit[k]);
        todo := todo - {k};
      }
      assert entriesToAddOnCommit == map k | k in entriesToAddOnCommit.Keys - todo :: entriesToAddOnCommit[k];
    }

    /** Writes a null marker for every missed key that was not staged. */
    method WriteNullMarkers()
      modifies delegate
      ensures delegate.entries == old(delegate.entries) + NullMarkers(entriesMissedInCache, entriesToAddOnCommit)
    {
      var missed := entriesMissedInCache;
      while missed != {}
        invariant missed <= entriesMissedInCache
        invariant delegate.entries == old(delegate.entries) + NullMarkers(entriesMissedInCache - missed, entriesToAddOnCommit)
        decreases missed
      {
        var k :| k in missed;
        if k !in entriesToAddOnCommit {
          delegate.PutObject(k, Null);
        }
        missed := missed - {k};
      }
      assert entriesMissedInCache - missed == entriesMissedInCache;
    }

    /** Removes every missed key from the shared cache. */
    method UnlockMissedEntries()
      modifies delegate
      ensures delegate.entries == old(delegate.entries) - entriesMissedInCache
    {
      var missed := entriesMissedInCache;
      while missed != {}
        invariant missed <= entriesMissedInCache
        invariant delegate.entries == old(delegate.entries) - (entriesMissedInCache - missed)
        decreases missed
      {
        var k :| k in missed;
        var _ := delegate.RemoveObject(k);
        missed := missed - {k};
      }
      assert entriesMissedInCache - missed == entriesMissedInCache;
    }
  }

  /**
   * The per-session registry of staging areas, one per shared cache,
   * created on first use.  It is not one of the modelled sources; the
   * caching executor reaches its shared caches through it.
   */
  class TransactionalCacheManager<K(==)> {
    var transactionalCaches: map<Cache<K>, TransactionalCache<K>>

    ghost predicate Valid()
      reads this
    {
      forall c :: c in transactionalCaches ==> transactionalCaches[c].delegate == c
    }

    /** The pending clear flag for a shared cache (false before its staging area exists). */
    ghost function ClearPending(c: Cache<K>): bool
      reads this, transactionalCaches.Values
    {
      c in transactionalCaches && transactionalCaches[c].clearOnCommit
    }

    /** What is staged for a shared cache (nothing before its staging area exists). */
    ghost function Staged(c: Cache<K>): map<K, Obj>
      reads this, transactionalCaches.Values
    {
      if c in transactionalCaches then transactionalCaches[c].entriesToAddOnCommit else map[]
    }

    /** The keys that missed in a shared cache (none before its staging area exists). */
    ghost function Missed(c: Cache<K>): set<K>
      reads this, transactionalCaches.Values
    {
      if c in transactionalCaches then transactionalCaches[c].entriesMissedInCache else {}
    }

    constructor ()
      ensures Valid() && transactionalCaches == map[]
    {
      transactionalCaches := map[];
    }

    method GetTransactionalCache(c: Cache<K>) returns (tc: TransactionalCache<K>)
      requires Valid()
      modifies this
      ensures Valid() && tc.delegate == c
      ensures c in transactionalCaches && transactionalCaches[c] == tc
      ensures c in old(transactionalCaches) ==> transactionalCaches == old(transactionalCaches)
      ensures c !in old(transactionalCaches) ==> fresh(tc) && tc.IsReset() && transactionalCaches == old(transactionalCaches)[c := tc]
    {
      if c in transactionalCaches {
        tc := transactionalCaches[c];
      } else {
        tc := new TransactionalCache(c);
        transactionalCaches := transactionalCaches[c := tc];
      }
    }

    method GetObject(c: Cache<K>, k: K) returns (v: Obj)
      requires Valid()
      modifies this, transactionalCaches.Values
      ensures Valid() && c in transactionalCaches
      ensures v == if old(ClearPending(c)) then Null else Lookup(c.entries, k)
      ensures ClearPending(c) == old(ClearPending(c))
      ensures c in old(transactionalCaches) ==> transactionalCaches == old(transactionalCaches)
      ensures c !in old(transactionalCaches) ==> transactionalCaches == old(transactionalCaches)[c := transactionalCaches[c]] && fresh(transactionalCaches[c])
      ensures forall d :: d in old(transactionalCaches) && d != c ==> d in transactionalCaches && transactionalCaches[d] == old(transactionalCaches[d]) && unchanged(transactionalCaches[d])
      ensures transactionalCaches[c].entriesToAddOnCommit == old(if c in transactionalCaches then transactionalCaches[c].entriesToAddOnCommit else map[])
      ensures Missed(c) == old(Missed(c)) + (if Lookup(c.entries, k) == Null then {k} else {})
    {
      var tc := GetTransactionalCache(c);
      v := tc.GetObject(k);
    }

    method PutObject(c: Cache<K>, k: K, v: Obj)
      requires Valid()
      modifies this, transactionalCaches.Values
      ensures Valid() && c in transactionalCaches
      ensures c in old(transactionalCaches) ==> transactionalCaches == old(transactionalCaches)
      ensures c !in old(transactionalCaches) ==> transactionalCaches == old(transactionalCaches)[c := transactionalCaches[c]] && fresh(transactionalCaches[c])
      ensures transactionalCaches[c].entriesToAddOnCommit == old(if c in transactionalCaches then transactionalCaches[c].entriesToAddOnCommit else map[])[k := v]
      ensures ClearPending(c) == old(ClearPending(c)) && Missed(c) == old(Missed(c))
      ensures forall d :: d in old(transactionalCaches) && d != c ==> d in transactionalCaches && transactionalCaches[d] == old(transactionalCaches[d]) && unchanged(transactionalCaches[d])
    {
      var tc := GetTransactionalCache(c);
      tc.PutObject(k, v);
    }

    method Clear(c: Cache<K>)
      requires Valid()
      modifies this, transactionalCaches.Values
      ensures Valid() && c in transactionalCaches
      ensures c in old(transactionalCaches) ==> transactionalCaches == old(transactionalCaches)
      ensures c !in old(transactionalCaches) ==> transactionalCaches == old(transactionalCaches)[c := transactionalCaches[c]] && fresh(transactionalCaches[c])
      ensures ClearPending(c) && transactionalCaches[c].entriesToAddOnCommit == map[]
      ensures Missed(c) == old(Missed(c))
      ensures forall d :: d in old(transactionalCaches) && d != c ==> d in transactionalCaches && transactionalCaches[d] == old(transactionalCaches[d]) && unchanged(transactionalCaches[d])
    {
      var tc := GetTransactionalCache(c);
      tc.Clear();
    }

    /** Commits every staging area into its shared cache. */
    method Commit()
      requires Valid()
      modifies transactionalCaches.Values, transactionalCaches.Keys
      ensures Valid()
      ensures forall c :: c in transactionalCaches ==>
        c.entries == Committed(old(c.entries), old(transactionalCaches[c].clearOnCommit),
                               old(transactionalCaches[c].entriesToAddOnCommit), old(transactionalCaches[c].entriesMissedInCache))
      ensures forall c :: c in transactionalCaches ==> transactionalCaches[c].IsReset()
    {
      var todo := transactionalCaches.Keys;
      while todo != {}
        invariant todo <= transactionalCaches.Keys
        invariant forall c :: c in transactionalCaches.Keys - todo ==>
          c.entries == Committed(old(c.entries), old(transactionalCaches[c].clearOnCommit),
                                 old(transactionalCaches[c].entriesToAddOnCommit), old(transactionalCaches[c].entriesMissedInCache))
          && transactionalCaches[c].IsReset()
        invariant forall c :: c in todo ==> unchanged(c) && unchanged(transactionalCaches[c])
        decreases todo
      {
        var c :| c in todo;
        transactionalCaches[c].Commit();
        todo := todo - {c};
      }
    }

    /** Rolls every staging area back, releasing its missed keys in the shared cache. */
    method Rollback()
      requires Valid()
      modifies transactionalCaches.Values, transactionalCaches.Keys
      ensures Valid()
      ensures forall c :: c in transactionalCaches ==>
        c.entries == RolledBack(old(c.entries), old(transactionalCaches[c].entriesMissedInCache))
      ensures forall c :: c in transactionalCaches ==> transactionalCaches[c].IsReset()
    {
      var todo := transactionalCaches.Keys;
      while todo != {}
        invariant todo <= transactionalCaches.Keys
        invariant forall c :: c in transactionalCaches.Keys - todo ==>
          c.entries == RolledBack(old(c.entries), old(transactionalCaches[c].entriesMissedInCache))
          && transactionalCaches[c].IsReset()
        invariant forall c :: c in todo ==> unchanged(c) && unchanged(transactionalCaches[c])
        decreases todo
      {
        var c :| c in todo;
        transactionalCaches[c].Rollback();
        todo := todo - {c};
      }
    }
  }
}
