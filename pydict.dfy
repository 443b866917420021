/**
 * Python's `dict`: a finite map that also remembers the order in which its
 * keys were first inserted. Iteration (`items()`) follows that order, and
 * re-assigning an existing key keeps its position.
 */
module PyDict {

  datatype Dict<K, V> = Dict(keys: seq<K>, items: map<K, V>) {

    /** The insertion order lists every key exactly once. */
    ghost predicate Valid() {
      && (forall i, j | 0 <= i < j < |keys| :: keys[i] != keys[j])
      && (forall k | k in items :: k in keys)
      && (forall i | 0 <= i < |keys| :: keys[i] in items)
    }

    /** `d[k] = v` */
    function Set(k: K, v: V): (d: Dict<K, V>)
      requires Valid()
      ensures d.Valid()
      ensures d.items == items[k := v]
      ensures k in items ==> d.keys == keys
      ensures k !in items ==> d.keys == keys + [k]
    {
      if k in items then Dict(keys, items[k := v]) else Dict(keys + [k], items[k := v])
    }
  }

  /** `{}` */
  function Empty<K, V>(): (d: Dict<K, V>)
    ensures d.Valid() && d.items == map[] && d.keys == []
  {
    Dict([], map[])
  }
}
