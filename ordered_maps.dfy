/**
 * JavaScript `Map` semantics: a finite map whose iteration order is the order in
 * which keys were first inserted. `set` on a present key replaces the value and
 * keeps the key's position; `delete` drops the key from the order.
 */
module OrderedMaps {
  import opened Wrappers
  import opened Seqs

  datatype OrderedMap<K, V> = OrderedMap(keys: seq<K>, entries: map<K, V>)
  {
    /** The order lists every key exactly once. */
    ghost predicate Valid()
    {
      Distinct(keys) && entries.Keys == (set i | 0 <= i < |keys| :: keys[i])
    }

    /** `map.get(k)`. */
    function Get(k: K): (r: Option<V>)
      ensures r.Some? <==> k in entries
      ensures r.Some? ==> r.value == entries[k]
    {
      if k in entries then Some(entries[k]) else None
    }

    /** `map.set(k, v)`. */
    function Set(k: K, v: V): (r: OrderedMap<K, V>)
      requires Valid()
      ensures r.Valid()
      ensures r.entries == entries[k := v]
      ensures r.keys == if k in entries then keys else keys + [k]
    {
      if k in entries then OrderedMap(keys, entries[k := v])
      else
        var ks := keys + [k];
        assert (set i | 0 <= i < |ks| :: ks[i]) == (set i | 0 <= i < |keys| :: keys[i]) + {k} by {
          assert forall i :: 0 <= i < |keys| ==> ks[i] == keys[i];
          assert ks[|keys|] == k;
        }
        OrderedMap(ks, entries[k := v])
    }

    /** `map.delete(k)`. */
    function Delete(k: K): (r: OrderedMap<K, V>)
      requires Valid()
      ensures r.Valid()
      ensures r.entries == entries - {k}
      ensures r.keys == RemoveAll(keys, k)
    {
      RemoveAllDistinct(keys, k);
      OrderedMap(RemoveAll(keys, k), entries - {k})
    }

    /** `Array.from(map.values())`: the values in key order. */
    function Values(): (r: seq<V>)
      requires Valid()
      ensures |r| == |keys|
      ensures forall i :: 0 <= i < |keys| ==> r[i] == entries[keys[i]]
    {
      seq(|keys|, i requires 0 <= i < |keys| => entries[keys[i]])
    }
  }

  /** `new Map()`. */
  function Empty<K, V>(): (r: OrderedMap<K, V>)
    ensures r.Valid() && r.keys == [] && r.entries == map[]
  {
    OrderedMap([], map[])
  }
}
