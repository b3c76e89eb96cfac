/**
 * LruCache: a decorator that tracks its keys in access order (eldest
 * first) and, when admitting a new key takes the tracked keys over the
 * configured size, drops the eldest key and removes it from the wrapped
 * cache.
 */
module LruCaches {
  import opened Lang
  import opened Caches

  const DefaultSize: int := 1024

  ghost predicate Distinct<K>(s: seq<K>) {
    forall i, j :: 0 <= i < j < |s| ==> s[i] != s[j]
  }

  /** How many keys a map of the given size bound may hold (a negative bound holds none). */
  function Room(size: int): nat {
    if size < 0 then 0 else size
  }

  /** `s` with every occurrence of `k` removed, order otherwise kept. */
  function Without<K(==)>(s: seq<K>, k: K): seq<K>
    decreases |s|
  {
    if s == [] then [] else (if s[0] == k then [] else [s[0]]) + Without(s[1..], k)
  }

  lemma {:induction false} WithoutMembers<K>(s: seq<K>, k: K)
    ensures forall x :: x in Without(s, k) <==> x in s && x != k
    decreases |s|
  {
    if s != [] {
      WithoutMembers(s[1..], k);
      assert s == [s[0]] + s[1..];
    }
  }

  lemma {:induction false} WithoutDistinct<K>(s: seq<K>, k: K)
    requires Distinct(s)
    ensures Distinct(Without(s, k))
    ensures |Without(s, k)| == if k in s then |s| - 1 else |s|
    decreases |s|
  {
    if s != [] {
      assert Distinct(s[1..]);
      WithoutDistinct(s[1..], k);
      WithoutMembers(s[1..], k);
      assert s == [s[0]] + s[1..];
      assert s[0] !in s[1..];
      var rest := Without(s[1..], k);
      if s[0] != k {
        assert s[0] !in rest;
        assert Without(s, k) == [s[0]] + rest;
        forall i, j | 0 <= i < j < |[s[0]] + rest|
          ensures ([s[0]] + rest)[i] != ([s[0]] + rest)[j]
        {
          if i == 0 {
            assert ([s[0]] + rest)[j] == rest[j - 1];
          }
        }
      } else {
        assert k !in s[1..];
      }
    }
  }

  /** The key order after `k` is accessed or re-put: `k` moves to the most recent end. */
  function Touch<K(==)>(s: seq<K>, k: K): seq<K> {
    Without(s, k) + [k]
  }

  /** A LinkedHashMap `get` in access order: only a present key moves. */
  function Refresh<K(==)>(s: seq<K>, k: K): seq<K> {
    if k in s then Touch(s, k) else s
  }

  datatype Admission<K> = Admission(order: seq<K>, evicted: Option<K>)

  /**
   * `keyMap.put(k, k)` with the eldest-entry hook: a present key only
   * moves; a new key is appended, and if the map then holds more than
   * `size` keys its eldest key is dropped and reported.
   */
  function Admit<K(==)>(order: seq<K>, k: K, size: int): Admission<K> {
    if k in order then Admission(Touch(order, k), None)
    else
      var grown := order + [k];
      if |grown| > size then Admission(grown[1..], Some(grown[0]))
      else Admission(grown, None)
  }

  /** Admitting a key keeps the keys distinct and within the size bound. */
  lemma {:induction false} AdmitKeepsBound<K>(order: seq<K>, k: K, size: int)
    requires Distinct(order) && |order| <= Room(size)
    ensures Distinct(Admit(order, k, size).order)
    ensures |Admit(order, k, size).order| <= Room(size)
  {
    if k in order {
      WithoutDistinct(order, k);
      WithoutMembers(order, k);
      var w := Without(order, k);
      forall i, j | 0 <= i < j < |w + [k]|
        ensures (w + [k])[i] != (w + [k])[j]
      {
        if j == |w| {
          assert (w + [k])[i] == w[i];
        } else {
          assert (w + [k])[i] == w[i] && (w + [k])[j] == w[j];
        }
      }
    } else {
      var grown := order + [k];
      assert Distinct(grown) by {
        forall i, j | 0 <= i < j < |grown|
          ensures grown[i] != grown[j]
        {
          if j == |order| {
            assert grown[i] == order[i];
          }
        }
      }
      assert Distinct(grown[1..]);
    }
  }

  /** Eviction happens exactly when a new key arrives while the map is full. */
  lemma {:induction false} AdmitEvictsOnlyWhenFull<K>(order: seq<K>, k: K, size: int)
    ensures Admit(order, k, size).evicted.Some? <==> k !in order && |order| >= size
    ensures k !in order && |order| >= size && order != [] ==> Admit(order, k, size).evicted == Some(order[0])
    ensures k !in order && |order| >= size && order != [] ==> Admit(order, k, size).order == order[1..] + [k]
  {
    if k !in order && |order| >= size && order != [] {
      assert (order + [k])[1..] == order[1..] + [k];
    }
  }

  /** With room for at least one key, the admitted key is the most recent one. */
  lemma {:induction false} AdmitMostRecent<K>(order: seq<K>, k: K, size: int)
    requires size >= 1
    ensures |Admit(order, k, size).order| >= 1
    ensures Admit(order, k, size).order[|Admit(order, k, size).order| - 1] == k
  {
    if k !in order && |order| + 1 > size {
      var grown := order + [k];
      assert grown[1..][|grown| - 2] == k;
    }
  }

  /** Keys are neither lost nor invented: what is tracked afterwards, plus the evicted key, is what was tracked plus `k`. */
  lemma {:induction false} AdmitMembers<K>(order: seq<K>, k: K, size: int, x: K)
    ensures (x in Admit(order, k, size).order || Admit(order, k, size).evicted == Some(x)) <==> (x in order || x == k)
  {
    WithoutMembers(order, k);
    if k !in order {
      var grown := order + [k];
      if |grown| > size {
        assert grown == [grown[0]] + grown[1..];
        assert x in grown <==> x == grown[0] || x in grown[1..];
      }
    }
  }

  /** Accessing the eldest of two or more keys makes the next key the eviction victim. */
  lemma {:induction false} RefreshChangesVictim<K>(order: seq<K>)
    requires Distinct(order) && |order| >= 2
    ensures Refresh(order, order[0])[0] == order[1]
  {
    assert order[1] != order[0];
    assert order[1..] == [order[1]] + order[2..];
    assert Without(order, order[0]) == Without(order[1..], order[0]);
    assert Without(order[1..], order[0]) == [order[1]] + Without(order[2..], order[0]);
  }

  /** Putting the keys `ks` one after another into an empty key map. */
  function AdmitAll<K(==)>(ks: seq<K>, size: int): Admission<K>
    decreases |ks|
  {
    if ks == [] then Admission([], None)
    else
      var before := AdmitAll(ks[..|ks| - 1], size);
      var a := Admit(before.order, ks[|ks| - 1], size);
      Admission(a.order, if a.evicted.Some? then a.evicted else before.evicted)
  }

  /** Up to `size` distinct keys are all kept, in insertion order, and nothing is evicted. */
  lemma {:induction false} AdmitAllWithinSize<K>(ks: seq<K>, size: int)
    requires Distinct(ks) && |ks| <= size
    ensures AdmitAll(ks, size) == Admission(ks, None)
    decreases |ks|
  {
    if ks != [] {
      var init := ks[..|ks| - 1];
      assert Distinct(init);
      AdmitAllWithinSize(init, size);
      assert ks[|ks| - 1] !in init;
      assert init + [ks[|ks| - 1]] == ks;
    }
  }

  /** Putting `size + 1` distinct keys evicts exactly the first one. */
  lemma {:induction false} OverflowEvictsFirst<K>(ks: seq<K>, size: int)
    requires Distinct(ks) && size >= 1 && |ks| == size + 1
    ensures AdmitAll(ks, size) == Admission(ks[1..], Some(ks[0]))
  {
    var init := ks[..|ks| - 1];
    var last := ks[|ks| - 1];
    assert Distinct(init);
    AdmitAllWithinSize(init, size);
    assert last !in init;
    AdmitEvictsOnlyWhenFull(init, last, size);
    assert init[0] == ks[0];
    assert init[1..] + [last] == ks[1..];
    assert AdmitAll(ks, size) == Admission(Admit(init, last, size).order, Admit(init, last, size).evicted);
  }

  class LruCache<K(==)> {
    const delegate: Cache<K>
    /** The bound captured by the key map's eldest-entry hook. */
    var size: int
    /** The keys of the key map, eldest (least recently used) first. */
    var keyMap: seq<K>
    var eldestKey: Option<K>

    ghost predicate Valid()
      reads this
    {
      size >= 0 && Distinct(keyMap) && |keyMap| <= Room(size) && eldestKey.None?
    }

    constructor (delegate: Cache<K>)
      ensures Valid() && this.delegate == delegate
      ensures size == DefaultSize && keyMap == []
    {
      this.delegate := delegate;
      size := DefaultSize;
      keyMap := [];
      eldestKey := None;
    }

    function GetId(): string {
      delegate.id
    }

    function GetSize(): nat
      reads delegate
    {
      delegate.GetSize()
    }

    /**
     * Installs a new, empty key map bounded by `size`; the wrapped cache
     * keeps its entries.  A negative size is an illegal initial capacity for
     * the new map, so the old key map stays.
     */
    method SetSize(size: int) returns (r: Outcome)
      requires Valid()
      modifies this
      ensures Valid()
      ensures size < 0 ==> r == Fail(IllegalArgumentException) && unchanged(this)
      ensures size >= 0 ==> r == Pass && this.size == size && keyMap == [] && eldestKey == old(eldestKey)
    {
      if size < 0 {
        return Fail(IllegalArgumentException);
      }
      this.size := size;
      keyMap := [];
      r := Pass;
    }

    method PutObject(k: K, v: Obj)
      requires Valid()
      modifies this, delegate
      ensures Valid() && size == old(size)
      ensures keyMap == Admit(old(keyMap), k, size).order
      ensures var a := Admit(old(keyMap), k, size);
        delegate.entries == if a.evicted.Some? then old(delegate.entries)[k := v] - {a.evicted.value}
                            else old(delegate.entries)[k := v]
    {
      delegate.PutObject(k, v);
      CycleKeyList(k);
    }

    /** Reads through to the wrapped cache and refreshes the key's recency. */
    method GetObject(k: K) returns (v: Obj)
      requires Valid()
      modifies this
      ensures Valid() && size == old(size)
      ensures keyMap == Refresh(old(keyMap), k)
      ensures v == Lookup(delegate.entries, k)
    {
      if k in keyMap {
        WithoutDistinct(keyMap, k);
        AdmitKeepsBound(keyMap, k, size);
        keyMap := Touch(keyMap, k);
      }
      v := delegate.GetObject(k);
    }

    /** Removes from the wrapped cache only; the key map keeps the key. */
    method RemoveObject(k: K) returns (v: Obj)
      modifies delegate
      ensures v == Lookup(old(delegate.entries), k)
      ensures delegate.entries == old(delegate.entries) - {k}
    {
      v := delegate.RemoveObject(k);
    }

    method Clear()
      requires Valid()
      modifies this, delegate
      ensures Valid() && size == old(size)
      ensures keyMap == [] && delegate.entries == map[]
    {
      delegate.Clear();
      keyMap := [];
    }

    method CycleKeyList(k: K)
      requires Valid()
      modifies this, delegate
      ensures Valid() && size == old(size)
      ensures var a := Admit(old(keyMap), k, size);
        keyMap == a.order &&
        delegate.entries == if a.evicted.Some? then old(delegate.entries) - {a.evicted.value} else old(delegate.entries)
    {
      AdmitKeepsBound(keyMap, k, size);
      if k in keyMap {
        keyMap := Touch(keyMap, k);
      } else {
        keyMap := keyMap + [k];
        var tooBig := |keyMap| > size;
        if tooBig {
          eldestKey := Some(keyMap[0]);
          keyMap := keyMap[1..];
        }
      }
      if eldestKey.Some? {
        var _ := delegate.RemoveObject(eldestKey.value);
        eldestKey := None;
      }
    }
  }
}
