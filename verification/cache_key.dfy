/**
 * CacheKey: the composite identity of a cached query.  Every value fed
 * to `update` folds into a 32-bit hash, a 64-bit checksum and a count,
 * and is kept in order in an update list.  Two keys are equal when the
 * three summaries agree and the update lists agree element by element.
 */
module CacheKeys {
  import opened Lang

  const DefaultMultiplier: int := 37
  const DefaultHashcode: int := 17

  /** The most elements a Java list can hold (Integer.MAX_VALUE). */
  const MaxUpdates: nat := 0x7FFF_FFFF

  /** Values of Java's `int`. */
  type Int32 = n: int | -0x8000_0000 <= n < 0x8000_0000

  /** Values of Java's `long`. */
  type Int64 = n: int | -0x8000_0000_0000_0000 <= n < 0x8000_0000_0000_0000

  /** Java's `int` arithmetic: the result wraps around modulo 2^32. */
  function WrapInt(n: int): Int32 {
    (n + 0x8000_0000) % 0x1_0000_0000 - 0x8000_0000
  }

  /** Java's `long` arithmetic: the result wraps around modulo 2^64. */
  function WrapLong(n: int): Int64 {
    (n + 0x8000_0000_0000_0000) % 0x1_0000_0000_0000_0000 - 0x8000_0000_0000_0000
  }

  /** ArrayUtil.hashCode of a non-null value; it is not modelled, so every key carries it as a parameter. */
  type Hasher = Obj -> Int32

  /**
   * The running summaries of a key: Java's `int hashcode`, `long checksum`
   * and `int count`.  The count never exceeds the size of the update list,
   * itself at most Integer.MAX_VALUE, so it never wraps.
   */
  datatype Digest = Digest(hashcode: Int32, checksum: Int64, count: int)

  const InitialDigest := Digest(DefaultHashcode, 0, 0)

  /** What a CacheKey is as a hash-map key: the summaries its equals compares plus the update list. */
  datatype Fingerprint = Fingerprint(digest: Digest, updates: seq<Obj>)

  /** The hash contribution of one value: 1 for null, ArrayUtil.hashCode otherwise. */
  function BaseHash(hasher: Hasher, x: Obj): Int32 {
    if x.Null? then 1 else hasher(x)
  }

  /**
   * One call of `update`: count is incremented first, the checksum adds
   * the base hash (widened from int to long), the base hash is multiplied
   * by the new count, and the hash becomes multiplier * hash + base, each
   * step with Java's wrap-around.
   */
  function Step(d: Digest, hasher: Hasher, x: Obj): Digest {
    var base := BaseHash(hasher, x);
    var c := d.count + 1;
    Digest(WrapInt(DefaultMultiplier * d.hashcode + WrapInt(base * c)), WrapLong(d.checksum + base), c)
  }

  /** The summaries after feeding `xs`, in order, to a key whose summaries were `d`. */
  function Absorb(d: Digest, hasher: Hasher, xs: seq<Obj>): Digest
    decreases |xs|
  {
    if xs == [] then d else Absorb(Step(d, hasher, xs[0]), hasher, xs[1..])
  }

  /** The summaries of a key built from `xs` alone. */
  function DigestOf(hasher: Hasher, xs: seq<Obj>): Digest {
    Absorb(InitialDigest, hasher, xs)
  }

  /** Feeding one more value extends the fold by one step. */
  lemma {:induction false} AbsorbSnoc(d: Digest, hasher: Hasher, xs: seq<Obj>, x: Obj)
    ensures Absorb(d, hasher, xs + [x]) == Step(Absorb(d, hasher, xs), hasher, x)
    decreases |xs|
  {
    if xs == [] {
      assert [x][1..] == [];
    } else {
      assert (xs + [x])[1..] == xs[1..] + [x];
      AbsorbSnoc(Step(d, hasher, xs[0]), hasher, xs[1..], x);
    }
  }

  /** Feeding `xs` then `ys` is the same as feeding `xs + ys` (what updateAll relies on). */
  lemma {:induction false} AbsorbAppend(d: Digest, hasher: Hasher, xs: seq<Obj>, ys: seq<Obj>)
    ensures Absorb(d, hasher, xs + ys) == Absorb(Absorb(d, hasher, xs), hasher, ys)
    decreases |xs|
  {
    if xs == [] {
      assert xs + ys == ys;
    } else {
      assert (xs + ys)[1..] == xs[1..] + ys;
      AbsorbAppend(Step(d, hasher, xs[0]), hasher, xs[1..], ys);
    }
  }

  /** The count of a key is the number of values it absorbed, as long as that fits in an int. */
  lemma {:induction false} CountIsUpdateCount(hasher: Hasher, xs: seq<Obj>)
    requires |xs| <= MaxUpdates
    ensures DigestOf(hasher, xs).count == |xs|
    decreases |xs|
  {
    if xs != [] {
      var init := xs[..|xs| - 1];
      assert init + [xs[|xs| - 1]] == xs;
      AbsorbSnoc(InitialDigest, hasher, init, xs[|xs| - 1]);
      CountIsUpdateCount(hasher, init);
    }
  }

  /** The hash of a key built from one value `x` is 37 * 17 + base(x), wrapped. */
  lemma {:induction false} SingleUpdateHash(hasher: Hasher, x: Obj)
    ensures DigestOf(hasher, [x]).hashcode == WrapInt(629 + BaseHash(hasher, x))
    ensures DigestOf(hasher, [x]).checksum == BaseHash(hasher, x)
    ensures DigestOf(hasher, [x]).count == 1
  {
    assert [] + [x] == [x];
    AbsorbSnoc(InitialDigest, hasher, [], x);
  }

  class CacheKey {
    /** ArrayUtil.hashCode, supplied from outside. */
    const hasher: Hasher
    /** True for NULL_CACHE_KEY, the shared key whose update methods throw. */
    const isNullKey: bool
    const multiplier: int
    var hashcode: Int32
    var checksum: Int64
    var count: int
    var updateList: seq<Obj>

    /** The summaries are always the fold of the update list. */
    ghost predicate Valid()
      reads this
    {
      multiplier == DefaultMultiplier &&
      |updateList| <= MaxUpdates &&
      Digest(hashcode, checksum, count) == DigestOf(hasher, updateList)
    }

    /** The key as a hash-map key sees it. */
    function Value(): Fingerprint
      reads this
    {
      Fingerprint(Digest(hashcode, checksum, count), updateList)
    }

    /** `new CacheKey()`. */
    constructor (hasher: Hasher)
      ensures Valid() && this.hasher == hasher && !isNullKey
      ensures updateList == [] && hashcode == DefaultHashcode && checksum == 0 && count == 0
    {
      this.hasher := hasher;
      isNullKey := false;
      multiplier := DefaultMultiplier;
      hashcode := DefaultHashcode;
      checksum := 0;
      count := 0;
      updateList := [];
    }

    /** NULL_CACHE_KEY: an empty key that refuses every update. */
    constructor NullCacheKey(hasher: Hasher)
      ensures Valid() && this.hasher == hasher && isNullKey
      ensures updateList == [] && hashcode == DefaultHashcode && checksum == 0 && count == 0
    {
      this.hasher := hasher;
      isNullKey := true;
      multiplier := DefaultMultiplier;
      hashcode := DefaultHashcode;
      checksum := 0;
      count := 0;
      updateList := [];
    }

    /** `new CacheKey(objects)`: a fresh key that absorbed `objects` in order. */
    constructor FromObjects(hasher: Hasher, objects: seq<Obj>)
      requires |objects| <= MaxUpdates
      ensures Valid() && this.hasher == hasher && !isNullKey
      ensures updateList == objects
      ensures Digest(hashcode, checksum, count) == DigestOf(hasher, objects)
    {
      this.hasher := hasher;
      isNullKey := false;
      multiplier := DefaultMultiplier;
      hashcode := DefaultHashcode;
      checksum := 0;
      count := 0;
      updateList := [];
      new;
      var r := UpdateAll(objects);
    }

    function GetUpdateCount(): nat
      reads this
    {
      |updateList|
    }

    /** `update(object)`: absorbs one value, or throws on NULL_CACHE_KEY. */
    method Update(x: Obj) returns (r: Outcome)
      requires Valid()
      requires |updateList| < MaxUpdates
      modifies this
      ensures Valid()
      ensures isNullKey ==> r == Fail(CacheException) && unchanged(this)
      ensures !isNullKey ==> r == Pass && updateList == old(updateList) + [x]
      ensures !isNullKey ==> GetUpdateCount() == old(GetUpdateCount()) + 1
      ensures !isNullKey ==> Digest(hashcode, checksum, count) == Step(old(Digest(hashcode, checksum, count)), hasher, x)
    {
      if isNullKey {
        return Fail(CacheException);
      }
      ghost var before := Digest(hashcode, checksum, count);
      var baseHashCode := if x.Null? then 1 else hasher(x);
      count := count + 1;
      checksum := WrapLong(checksum + baseHashCode);
      baseHashCode := WrapInt(baseHashCode * count);
      hashcode := WrapInt(multiplier * hashcode + baseHashCode);
      assert Digest(hashcode, checksum, count) == Step(before, hasher, x);
      AbsorbSnoc(InitialDigest, hasher, updateList, x);
      updateList := updateList + [x];
      r := Pass;
    }

    /** `updateAll(objects)`: `update` on each value in order. */
    method UpdateAll(objects: seq<Obj>) returns (r: Outcome)
      requires Valid()
      requires |updateList| + |objects| <= MaxUpdates
      modifies this
      ensures Valid()
      ensures isNullKey ==> r == Fail(CacheException) && unchanged(this)
      ensures !isNullKey ==> r == Pass && updateList == old(updateList) + objects
      ensures !isNullKey ==> Digest(hashcode, checksum, count) == Absorb(old(Digest(hashcode, checksum, count)), hasher, objects)
    {
      if isNullKey {
        return Fail(CacheException);
      }
      ghost var start := Digest(hashcode, checksum, count);
      var i := 0;
      while i < |objects|
        invariant 0 <= i <= |objects|
        invariant Valid()
        invariant updateList == old(updateList) + objects[..i]
        invariant Digest(hashcode, checksum, count) == Absorb(start, hasher, objects[..i])
      {
        AbsorbSnoc(start, hasher, objects[..i], objects[i]);
        assert objects[..i + 1] == objects[..i] + [objects[i]];
        var _ := Update(objects[i]);
        i := i + 1;
      }
      assert objects[..i] == objects;
      r := Pass;
    }

    /**
     * `equals`: false for null, otherwise true exactly when hash, checksum
     * and count agree and the update lists agree element by element.
     */
    method Equals(other: CacheKey?) returns (eq: bool)
      requires Valid()
      requires other != null ==> other.Valid()
      ensures eq <==> other != null && Value() == other.Value()
      ensures other != null && other.hasher == hasher ==> (eq <==> updateList == other.updateList)
    {
      if other == this {
        return true;
      }
      if other == null {
        return false;
      }
      if hashcode != other.hashcode || checksum != other.checksum || count != other.count {
        return false;
      }
      CountIsUpdateCount(hasher, updateList);
      CountIsUpdateCount(other.hasher, other.updateList);
      var i := 0;
      while i < |updateList|
        invariant 0 <= i <= |updateList| == |other.updateList|
        invariant updateList[..i] == other.updateList[..i]
      {
        if updateList[i] != other.updateList[i] {
          return false;
        }
        assert updateList[..i + 1] == updateList[..i] + [updateList[i]];
        assert other.updateList[..i + 1] == other.updateList[..i] + [other.updateList[i]];
        i := i + 1;
      }
      assert updateList == updateList[..i];
      assert other.updateList == other.updateList[..i];
      return true;
    }

    /** `hashCode`: the running hash, a function of the update list alone. */
    function HashCode(): (h: Int32)
      reads this
      requires Valid()
      ensures h == DigestOf(hasher, updateList).hashcode
    {
      hashcode
    }

    /** `clone`: an independent key with the same summaries and a copy of the update list. */
    method Clone() returns (c: CacheKey)
      requires Valid()
      ensures fresh(c) && c.Valid()
      ensures c.hasher == hasher && c.isNullKey == isNullKey
      ensures c.Value() == Value()
    {
      if isNullKey {
        c := new CacheKey.NullCacheKey(hasher);
      } else {
        c := new CacheKey(hasher);
      }
      c.hashcode := hashcode;
      c.checksum := checksum;
      c.count := count;
      c.updateList := updateList;
    }
  }

  /** Two valid keys over the same hasher are equal exactly when they absorbed the same values. */
  lemma {:induction false} EqualIffSameUpdates(a: CacheKey, b: CacheKey)
    requires a.Valid() && b.Valid() && a.hasher == b.hasher
    ensures a.Value() == b.Value() <==> a.updateList == b.updateList
    ensures a.updateList == b.updateList ==> a.HashCode() == b.HashCode()
  {
  }
}
