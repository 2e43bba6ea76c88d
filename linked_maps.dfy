/**
 * Java's LinkedHashMap: a map that remembers the order in which its keys were
 * first inserted. Re-putting a key replaces its value and keeps its place.
 */
module LinkedMaps {
  datatype LinkedMap<K(==), V> = LinkedMap(keys: seq<K>, values: map<K, V>) {
    ghost predicate Valid() {
      && (forall i, j :: 0 <= i < j < |keys| ==> keys[i] != keys[j])
      && (forall i :: 0 <= i < |keys| ==> keys[i] in values)
      && (forall k | k in values :: k in keys)
    }

    predicate IsEmpty() {
      |keys| == 0
    }

    /** `put(k, v)`. */
    function Put(k: K, v: V): (m: LinkedMap<K, V>)
      requires Valid()
      ensures m.Valid()
      ensures m.values == values[k := v]
      ensures k in values ==> m.keys == keys
      ensures k !in values ==> m.keys == keys + [k]
    {
      if k in values then LinkedMap(keys, values[k := v]) else LinkedMap(keys + [k], values[k := v])
    }

    /** The entries in iteration order, as `forEach` visits them. */
    function Entries(): (es: seq<(K, V)>)
      requires Valid()
      ensures |es| == |keys|
      ensures forall i :: 0 <= i < |keys| ==> es[i] == (keys[i], values[keys[i]])
    {
      seq(|keys|, i requires 0 <= i < |keys| => (keys[i], values[keys[i]]))
    }
  }

  function Empty<K, V>(): (m: LinkedMap<K, V>)
    ensures m.Valid() && m.IsEmpty()
  {
    LinkedMap([], map[])
  }
}
