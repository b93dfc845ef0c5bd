/** A JavaScript `Map` with string keys, as the providers keep their
    collections: the entries, and the keys in insertion order, which is the
    order `forEach` visits them in. */
module OrderedMaps {
  import opened Text

  datatype OMap<V> = OMap(keys: seq<Str>, entries: map<Str, V>)

  /** Each key listed once, and exactly the keys that have an entry. */
  ghost predicate Valid<V>(m: OMap<V>)
  {
    Distinct(m.keys) && forall k :: k in m.entries <==> k in m.keys
  }

  function Empty<V>(): (r: OMap<V>)
    ensures Valid(r) && r.entries == map[]
  {
    OMap([], map[])
  }

  /** `m.set(k, v)`: a new key goes last, an existing one keeps its place. */
  function Set<V>(m: OMap<V>, k: Str, v: V): (r: OMap<V>)
    ensures Valid(m) ==> Valid(r)
    ensures r.entries == m.entries[k := v]
    ensures k in m.entries ==> r.keys == m.keys
  {
    OMap(if k in m.entries then m.keys else m.keys + [k], m.entries[k := v])
  }

  /** lib0's `map.setIfUndefined(m, k, create)`: an existing entry is kept. */
  function SetIfUndefined<V>(m: OMap<V>, k: Str, v: V): (r: OMap<V>)
    ensures Valid(m) ==> Valid(r)
    ensures k in r.entries && r.entries[k] == (if k in m.entries then m.entries[k] else v)
    ensures forall j :: j != k ==> (j in r.entries <==> j in m.entries)
    ensures forall j :: j != k && j in m.entries ==> r.entries[j] == m.entries[j]
  {
    if k in m.entries then m else Set(m, k, v)
  }

  /** `m.delete(k)`. */
  function Delete<V>(m: OMap<V>, k: Str): (r: OMap<V>)
    ensures Valid(m) ==> Valid(r)
    ensures r.entries == m.entries - {k}
  {
    EraseExactly(m.keys, k);
    OMap(Erase(m.keys, k), m.entries - {k})
  }
}
