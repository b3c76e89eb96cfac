/**
 * The Cache contract every decorator wraps, in the shape of its basic
 * map-backed implementation: `getObject` answers null both for an absent
 * key and for a key stored with a null value.
 */
module Caches {
  import opened Lang

  class Cache<K(==)> {
    const id: string
    var entries: map<K, Obj>

    constructor (id: string)
      ensures this.id == id && entries == map[]
    {
      this.id := id;
      entries := map[];
    }

    function GetSize(): nat
      reads this
    {
      |entries|
    }

    method GetObject(k: K) returns (v: Obj)
      ensures v == Lookup(entries, k)
    {
      v := if k in entries then entries[k] else Null;
    }

    method PutObject(k: K, v: Obj)
      modifies this
      ensures entries == old(entries)[k := v]
    {
      entries := entries[k := v];
    }

    method RemoveObject(k: K) returns (v: Obj)
      modifies this
      ensures v == Lookup(old(entries), k)
      ensures entries == old(entries) - {k}
    {
      v := if k in entries then entries[k] else Null;
      entries := entries - {k};
    }

    method Clear()
      modifies this
      ensures entries == map[]
    {
      entries := map[];
    }
  }
}
