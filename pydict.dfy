/** Python dictionaries with string keys, as the metadata code uses them:
    a dict remembers the order in which its keys were first inserted, and
    assigning to a key that is already present keeps that key's position. */
module PyDict {

  /** `keys` lists the keys in insertion order, `m` carries their values. */
  datatype Dict<V> = Dict(keys: seq<string>, m: map<string, V>)
  {
    /** No key is listed twice, and the listed keys are exactly the domain. */
    ghost predicate Valid() {
      && (forall i, j :: 0 <= i < j < |keys| ==> keys[i] != keys[j])
      && (forall k :: k in m <==> k in keys)
    }
  }

  /** The dict literal `{}`. */
  function Empty<V>(): (d: Dict<V>)
    ensures d.Valid() && d.keys == [] && d.m == map[]
  {
    Dict([], map[])
  }

  /** `d.get(k, default)`. */
  function Get<V>(d: Dict<V>, k: string, default: V): V
  {
    if k in d.m then d.m[k] else default
  }

  /** The assignment `d[k] = v`: a new key goes to the end of the order,
      an existing key keeps its place and gets the new value. */
  function Set<V>(d: Dict<V>, k: string, v: V): (r: Dict<V>)
    requires d.Valid()
    ensures r.Valid()
    ensures r.m == d.m[k := v]
    ensures k in d.m ==> r.keys == d.keys
    ensures k !in d.m ==> r.keys == d.keys + [k]
  {
    if k in d.m then Dict(d.keys, d.m[k := v]) else Dict(d.keys + [k], d.m[k := v])
  }
}
