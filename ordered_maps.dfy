/** The JavaScript `Map` the catalog tools use for de-duplication: entries keyed by a
    value, iterated in the order their keys were first inserted. */
module OrderedMaps {

  datatype OrderedMap<K(==, !new), V> = OrderedMap(keys: seq<K>, entries: map<K, V>)

  /** Keys are listed once each, and exactly the keys with an entry are listed. */
  ghost predicate Valid<K(!new), V>(m: OrderedMap<K, V>) {
    && (forall i, j :: 0 <= i < j < |m.keys| ==> m.keys[i] != m.keys[j])
    && (forall k :: k in m.entries <==> k in m.keys)
  }

  /** `new Map()` */
  function Empty<K(==, !new), V>(): (m: OrderedMap<K, V>)
    ensures Valid(m) && m.keys == [] && m.entries == map[]
  {
    OrderedMap([], map[])
  }

  /** `m.set(k, v)`: the value is replaced; a new key goes to the end of the iteration
      order and an existing key keeps its place. */
  function Put<K(==, !new), V>(m: OrderedMap<K, V>, k: K, v: V): (r: OrderedMap<K, V>)
    requires Valid(m)
    ensures Valid(r)
    ensures r.entries == m.entries[k := v]
    ensures k in m.entries ==> r.keys == m.keys
    ensures k !in m.entries ==> r.keys == m.keys + [k]
  {
    if k in m.entries then OrderedMap(m.keys, m.entries[k := v])
    else OrderedMap(m.keys + [k], m.entries[k := v])
  }

  /** `Array.from(m.values())` */
  function Values<K(==, !new), V>(m: OrderedMap<K, V>): (vs: seq<V>)
    requires Valid(m)
    ensures |vs| == |m.keys|
    ensures forall i :: 0 <= i < |vs| ==> vs[i] == m.entries[m.keys[i]]
  {
    seq(|m.keys|, i requires 0 <= i < |m.keys| => m.entries[m.keys[i]])
  }
}
