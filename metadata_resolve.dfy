/** `_find_matching_layer_metadata` (mapproxy/source/metadata.py): looking a
    layer name up in a layer table, first exactly, then ignoring case, then
    by containment. */
module MetadataResolve {
  import opened Optional
  import opened PyDict
  import opened PyValue

  /** The two fallback tiers that scan the table in key order. */
  datatype Tier = IgnoringCase | Containment

  predicate Matches(tier: Tier, candidate: string, name: string) {
    match tier
    case IgnoringCase => Lower(candidate) == Lower(name)
    case Containment => IsSubstring(name, candidate) || IsSubstring(candidate, name)
  }

  /** `keys[j]` is the first key that matches `name` at this tier. */
  ghost predicate FirstMatchAt(tier: Tier, keys: seq<string>, name: string, j: int) {
    && 0 <= j < |keys|
    && Matches(tier, keys[j], name)
    && forall i :: 0 <= i < j ==> !Matches(tier, keys[i], name)
  }

  /** The position of the first key, in order, that matches `name` at this tier. */
  function FirstMatch(tier: Tier, keys: seq<string>, name: string): (r: Option<nat>)
    ensures r.Some? ==> FirstMatchAt(tier, keys, name, r.value)
    ensures r.None? ==> forall i :: 0 <= i < |keys| ==> !Matches(tier, keys[i], name)
  {
    if keys == [] then None
    else if Matches(tier, keys[0], name) then Some(0)
    else
      match FirstMatch(tier, keys[1..], name)
      case None => None
      case Some(j) => Some(j + 1)
  }

  /** What `_find_matching_layer_metadata` returns for `name`: `{}` or a record
      stored in the table. */
  function Resolve(name: string, table: Dict<Dict<Value>>): (r: Dict<Value>)
    requires table.Valid()
    ensures r == Empty() || exists k :: k in table.m && table.m[k] == r
  {
    if name == "" || table.keys == [] then Empty()
    else if name in table.m then table.m[name]
    else
      match FirstMatch(IgnoringCase, table.keys, name)
      case Some(j) => table.m[table.keys[j]]
      case None =>
        match FirstMatch(Containment, table.keys, name)
        case Some(j) => table.m[table.keys[j]]
        case None => Empty()
  }

  /** The three tiers: an empty name or table gives `{}`; an exact key wins;
      otherwise the first key equal to the name ignoring case; otherwise the
      first key that contains the name or is contained in it; otherwise `{}`. */
  lemma ResolveTiers(name: string, table: Dict<Dict<Value>>, j: int)
    requires table.Valid()
    ensures name == "" || table.keys == [] ==> Resolve(name, table) == Empty()
    ensures name != "" && name in table.m ==> Resolve(name, table) == table.m[name]
    ensures name != "" && name !in table.m && FirstMatchAt(IgnoringCase, table.keys, name, j) ==>
      Resolve(name, table) == table.m[table.keys[j]]
    ensures (&& name != "" && name !in table.m
             && (forall i :: 0 <= i < |table.keys| ==> !Matches(IgnoringCase, table.keys[i], name))
             && FirstMatchAt(Containment, table.keys, name, j))
      ==> Resolve(name, table) == table.m[table.keys[j]]
    ensures (&& name != "" && name !in table.m
             && (forall i :: 0 <= i < |table.keys| ==> !Matches(IgnoringCase, table.keys[i], name))
             && (forall i :: 0 <= i < |table.keys| ==> !Matches(Containment, table.keys[i], name)))
      ==> Resolve(name, table) == Empty()
  {
  }

  lemma FirstMatchUnique(tier: Tier, keys: seq<string>, name: string, i: int, j: int)
    requires FirstMatchAt(tier, keys, name, i) && FirstMatchAt(tier, keys, name, j)
    ensures i == j
  {
  }

  /** `_find_matching_layer_metadata` (metadata.py:242-272). */
  method FindMatchingLayerMetadata(name: string, table: Dict<Dict<Value>>) returns (r: Dict<Value>)
    requires table.Valid()
    ensures r == Resolve(name, table)
    ensures r == Empty() || exists k :: k in table.m && table.m[k] == r
  {
    if name == "" || table.keys == [] {
      return Empty();
    }
    if name in table.m {
      return table.m[name];
    }
    var lowerName := Lower(name);
    for i := 0 to |table.keys|
      invariant forall t :: 0 <= t < i ==> !Matches(IgnoringCase, table.keys[t], name)
    {
      var candidate := table.keys[i];
      if Lower(candidate) == lowerName {
        FirstMatchUnique(IgnoringCase, table.keys, name, i, FirstMatch(IgnoringCase, table.keys, name).value);
        return table.m[candidate];
      }
    }
    for i := 0 to |table.keys|
      invariant forall t :: 0 <= t < i ==> !Matches(Containment, table.keys[t], name)
    {
      var candidate := table.keys[i];
      if IsSubstring(name, candidate) || IsSubstring(candidate, name) {
        FirstMatchUnique(Containment, table.keys, name, i, FirstMatch(Containment, table.keys, name).value);
        return table.m[candidate];
      }
    }
    return Empty();
  }
}
