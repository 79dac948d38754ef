/** Reconciling fetched metadata with the operator's own records by priority:
    `merge_layer_metadata`, `merge_metadata` and `_merge_contact_info`
    (mapproxy/source/metadata.py). Among the fetched records the first truthy
    value of a key wins; a truthy value of the operator's record then
    overrides it. */
module MetadataMerge {
  import opened PyDict
  import opened PyValue

  /** The loop over fetched records fills only missing keys; the loop over the
      operator's record overwrites. */
  datatype Mode = FillMissing | Overwrite

  predicate HasTruthy(d: Dict<Value>, k: string) {
    k in d.m && Truthy(d.m[k])
  }

  ghost predicate AllTruthy(d: Dict<Value>) {
    forall k :: k in d.m ==> Truthy(d.m[k])
  }

  ghost predicate AllValid(ds: seq<Dict<Value>>) {
    forall i :: 0 <= i < |ds| ==> ds[i].Valid()
  }

  /** One iteration of either loop. */
  function Put(acc: Dict<Value>, k: string, v: Value, mode: Mode): (r: Dict<Value>)
    requires acc.Valid()
    ensures r.Valid()
  {
    if Truthy(v) && (mode == Overwrite || k !in acc.m) then Set(acc, k, v) else acc
  }

  /** `acc` after the loop has gone over the first `n` items of `d`. */
  function PutAll(acc: Dict<Value>, d: Dict<Value>, n: nat, mode: Mode): (r: Dict<Value>)
    requires acc.Valid() && d.Valid() && n <= |d.keys|
    ensures r.Valid()
    ensures AllTruthy(acc) ==> AllTruthy(r)
  {
    if n == 0 then acc
    else Put(PutAll(acc, d, n - 1, mode), d.keys[n - 1], d.m[d.keys[n - 1]], mode)
  }

  /** The record the first loop builds from the fetched records, in list order. */
  function Aggregate(sources: seq<Dict<Value>>): (r: Dict<Value>)
    requires AllValid(sources)
    ensures r.Valid() && AllTruthy(r)
  {
    if sources == [] then Empty()
    else
      var last := sources[|sources| - 1];
      PutAll(Aggregate(sources[..|sources| - 1]), last, |last.keys|, FillMissing)
  }

  /** The fetched records, then the override: `merge_layer_metadata`'s result. */
  function PriorityMerge(override: Dict<Value>, sources: seq<Dict<Value>>): (r: Dict<Value>)
    requires override.Valid() && AllValid(sources)
    ensures r.Valid()
  {
    PutAll(Aggregate(sources), override, |override.keys|, Overwrite)
  }

  lemma {:induction false} PutAllFill(acc: Dict<Value>, d: Dict<Value>, n: nat, k: string)
    requires acc.Valid() && d.Valid() && n <= |d.keys|
    ensures k in PutAll(acc, d, n, FillMissing).m <==> k in acc.m || (k in d.keys[..n] && Truthy(d.m[k]))
    ensures k in acc.m ==> PutAll(acc, d, n, FillMissing).m[k] == acc.m[k]
    ensures k !in acc.m && k in PutAll(acc, d, n, FillMissing).m ==> PutAll(acc, d, n, FillMissing).m[k] == d.m[k]
  {
    if n > 0 {
      PutAllFill(acc, d, n - 1, k);
      var key := d.keys[n - 1];
      var prev := PutAll(acc, d, n - 1, FillMissing);
      assert PutAll(acc, d, n, FillMissing) == Put(prev, key, d.m[key], FillMissing);
      assert d.keys[..n] == d.keys[..n - 1] + [key];
      assert k in d.keys[..n] <==> k in d.keys[..n - 1] || k == key;
      if k != key {
        assert k in PutAll(acc, d, n, FillMissing).m <==> k in prev.m;
        assert k in prev.m ==> PutAll(acc, d, n, FillMissing).m[k] == prev.m[k];
      }
    }
  }

  lemma {:induction false} PutAllOverwrite(acc: Dict<Value>, d: Dict<Value>, n: nat, k: string)
    requires acc.Valid() && d.Valid() && n <= |d.keys|
    ensures k in PutAll(acc, d, n, Overwrite).m <==> k in acc.m || (k in d.keys[..n] && Truthy(d.m[k]))
    ensures k in d.keys[..n] && Truthy(d.m[k]) ==> PutAll(acc, d, n, Overwrite).m[k] == d.m[k]
    ensures !(k in d.keys[..n] && Truthy(d.m[k])) && k in acc.m ==> PutAll(acc, d, n, Overwrite).m[k] == acc.m[k]
  {
    if n > 0 {
      PutAllOverwrite(acc, d, n - 1, k);
      var key := d.keys[n - 1];
      var prev := PutAll(acc, d, n - 1, Overwrite);
      assert PutAll(acc, d, n, Overwrite) == Put(prev, key, d.m[key], Overwrite);
      assert d.keys[..n] == d.keys[..n - 1] + [key];
      assert k in d.keys[..n] <==> k in d.keys[..n - 1] || k == key;
      if k != key {
        assert k in PutAll(acc, d, n, Overwrite).m <==> k in prev.m;
        assert k in prev.m ==> PutAll(acc, d, n, Overwrite).m[k] == prev.m[k];
      } else if Truthy(d.m[key]) {
        assert PutAll(acc, d, n, Overwrite).m[k] == d.m[k];
      } else {
        assert PutAll(acc, d, n, Overwrite) == prev;
      }
    }
  }

  /** `sources[j]` is the first record, in list order, with a truthy `k`. */
  ghost predicate FirstTruthyAt(sources: seq<Dict<Value>>, k: string, j: int) {
    && 0 <= j < |sources|
    && HasTruthy(sources[j], k)
    && forall i :: 0 <= i < j ==> !HasTruthy(sources[i], k)
  }

  /** One more fetched record adds only the keys still missing for which it
      has a truthy value. */
  lemma AggregateStep(sources: seq<Dict<Value>>, k: string)
    requires sources != [] && AllValid(sources)
    ensures var init := Aggregate(sources[..|sources| - 1]);
      var last := sources[|sources| - 1];
      && (k in Aggregate(sources).m <==> k in init.m || HasTruthy(last, k))
      && (k in init.m ==> Aggregate(sources).m[k] == init.m[k])
      && (k !in init.m && HasTruthy(last, k) ==> Aggregate(sources).m[k] == last.m[k])
  {
    var last := sources[|sources| - 1];
    PutAllFill(Aggregate(sources[..|sources| - 1]), last, |last.keys|, k);
    assert last.keys[..|last.keys|] == last.keys;
  }

  /** The first loop keeps exactly the keys some fetched record has a truthy
      value for. */
  lemma {:induction false} AggregateHas(sources: seq<Dict<Value>>, k: string)
    requires AllValid(sources)
    ensures k in Aggregate(sources).m <==> exists j :: 0 <= j < |sources| && HasTruthy(sources[j], k)
  {
    if sources != [] {
      var n := |sources| - 1;
      var init := sources[..n];
      AggregateHas(init, k);
      AggregateStep(sources, k);
      assert forall i :: 0 <= i < n ==> init[i] == sources[i];
    }
  }

  /** Each kept key holds the value of the first fetched record, in list
      order, with a truthy value for it. */
  lemma {:induction false} AggregateFirstTruthy(sources: seq<Dict<Value>>, k: string)
    requires AllValid(sources)
    ensures k in Aggregate(sources).m <==> exists j :: 0 <= j < |sources| && HasTruthy(sources[j], k)
    ensures forall j :: FirstTruthyAt(sources, k, j) ==> Aggregate(sources).m[k] == sources[j].m[k]
  {
    AggregateHas(sources, k);
    if sources != [] {
      var n := |sources| - 1;
      var init := sources[..n];
      AggregateFirstTruthy(init, k);
      AggregateStep(sources, k);
      forall j | FirstTruthyAt(sources, k, j)
        ensures Aggregate(sources).m[k] == sources[j].m[k]
      {
        assert forall i :: 0 <= i < n ==> init[i] == sources[i];
        if j < n {
          assert FirstTruthyAt(init, k, j);
        } else {
          assert k !in Aggregate(init).m;
        }
      }
    }
  }

  /** `merge_layer_metadata`: a truthy override value wins; otherwise the first
      truthy value among the fetched records; no other key appears; every
      value in the result is truthy. */
  lemma PriorityMergeKey(override: Dict<Value>, sources: seq<Dict<Value>>, k: string)
    requires override.Valid() && AllValid(sources)
    ensures HasTruthy(override, k) ==>
      k in PriorityMerge(override, sources).m && PriorityMerge(override, sources).m[k] == override.m[k]
    ensures !HasTruthy(override, k) ==>
      (k in PriorityMerge(override, sources).m <==> exists j :: 0 <= j < |sources| && HasTruthy(sources[j], k))
    ensures !HasTruthy(override, k) ==>
      forall j :: FirstTruthyAt(sources, k, j) ==> PriorityMerge(override, sources).m[k] == sources[j].m[k]
    ensures k in PriorityMerge(override, sources).m ==> Truthy(PriorityMerge(override, sources).m[k])
  {
    AggregateFirstTruthy(sources, k);
    PutAllOverwrite(Aggregate(sources), override, |override.keys|, k);
    assert override.keys[..|override.keys|] == override.keys;
  }

  /** No input has a truthy value for `k`. */
  ghost predicate NowhereTruthy(override: Dict<Value>, sources: seq<Dict<Value>>, k: string) {
    !HasTruthy(override, k) && forall j :: 0 <= j < |sources| ==> !HasTruthy(sources[j], k)
  }

  /** The merged record is empty exactly when no input has a truthy value. */
  lemma PriorityMergeEmpty(override: Dict<Value>, sources: seq<Dict<Value>>)
    requires override.Valid() && AllValid(sources)
    ensures PriorityMerge(override, sources).keys == [] <==> forall k :: NowhereTruthy(override, sources, k)
  {
    var r := PriorityMerge(override, sources);
    if r.keys != [] {
      var k := r.keys[0];
      assert k in r.m;
      PriorityMergeKey(override, sources, k);
      assert !NowhereTruthy(override, sources, k);
    } else {
      forall k ensures NowhereTruthy(override, sources, k) {
        assert k !in r.m;
        PriorityMergeKey(override, sources, k);
      }
    }
  }

  /** The inner loop over one fetched record: its truthy values fill the keys
      still missing from `acc`. */
  method FillMissingFrom(acc: Dict<Value>, source: Dict<Value>) returns (merged: Dict<Value>)
    requires acc.Valid() && source.Valid()
    ensures merged == PutAll(acc, source, |source.keys|, FillMissing)
  {
    merged := acc;
    for i := 0 to |source.keys|
      invariant merged == PutAll(acc, source, i, FillMissing)
    {
      var key := source.keys[i];
      var value := source.m[key];
      if key !in merged.m && Truthy(value) {
        merged := Set(merged, key, value);
      }
    }
  }

  /** The loop over the operator's record: its truthy values overwrite. */
  method OverwriteFrom(acc: Dict<Value>, config: Dict<Value>) returns (merged: Dict<Value>)
    requires acc.Valid() && config.Valid()
    ensures merged == PutAll(acc, config, |config.keys|, Overwrite)
  {
    merged := acc;
    for i := 0 to |config.keys|
      invariant merged == PutAll(acc, config, i, Overwrite)
    {
      var key := config.keys[i];
      var value := config.m[key];
      if Truthy(value) {
        merged := Set(merged, key, value);
      }
    }
  }

  /** `merge_layer_metadata` (metadata.py:274-299). */
  method MergeLayerMetadata(layerConfig: Dict<Value>, sources: seq<Dict<Value>>) returns (merged: Dict<Value>)
    requires layerConfig.Valid() && AllValid(sources)
    ensures merged == PriorityMerge(layerConfig, sources)
    ensures AllTruthy(merged)
  {
    merged := Empty();
    for s := 0 to |sources|
      invariant merged == Aggregate(sources[..s])
    {
      assert sources[..s + 1][..s] == sources[..s];
      merged := FillMissingFrom(merged, sources[s]);
    }
    assert sources[..|sources|] == sources;
    merged := OverwriteFrom(merged, layerConfig);
  }

  /** A contact as the code can read it: a dict, or something falsy. */
  ghost predicate ContactShaped(c: Value) {
    (Truthy(c) ==> c.Map?) && (c.Map? ==> c.d.Valid())
  }

  /** The fields of a contact; a falsy contact has none, so skipping it is
      the same as reading an empty dict. */
  function ContactFields(c: Value): (r: Dict<Value>)
    requires ContactShaped(c)
    ensures r.Valid()
    ensures Truthy(c) ==> r == c.d
    ensures !Truthy(c) ==> r.keys == []
  {
    if c.Map? then c.d else Empty()
  }

  function AllContactFields(cs: seq<Value>): (r: seq<Dict<Value>>)
    requires forall i :: 0 <= i < |cs| ==> ContactShaped(cs[i])
    ensures |r| == |cs| && AllValid(r)
    ensures forall i :: 0 <= i < |cs| ==> r[i] == ContactFields(cs[i])
  {
    seq(|cs|, i requires 0 <= i < |cs| => ContactFields(cs[i]))
  }

  /** What `_merge_contact_info` returns: the field-wise priority merge of
      the contacts, or None when no field survives. */
  function MergedContact(serviceContact: Value, sourceContacts: seq<Value>): (r: Value)
    requires ContactShaped(serviceContact)
    requires forall i :: 0 <= i < |sourceContacts| ==> ContactShaped(sourceContacts[i])
    ensures r == PyNone || (r.Map? && r.d.Valid() && r.d.keys != [])
  {
    var fields := PriorityMerge(ContactFields(serviceContact), AllContactFields(sourceContacts));
    if fields.keys != [] then Map(fields) else PyNone
  }

  /** `_merge_contact_info`: each field takes the override contact's truthy
      value, else the first truthy value among the truthy source contacts;
      the result is None exactly when no contact has a truthy field. */
  lemma MergedContactField(serviceContact: Value, sourceContacts: seq<Value>, f: string)
    requires ContactShaped(serviceContact)
    requires forall i :: 0 <= i < |sourceContacts| ==> ContactShaped(sourceContacts[i])
    ensures var r := MergedContact(serviceContact, sourceContacts);
      Truthy(serviceContact) && HasTruthy(serviceContact.d, f) ==>
        r.Map? && f in r.d.m && r.d.m[f] == serviceContact.d.m[f]
    ensures var r := MergedContact(serviceContact, sourceContacts);
      !(Truthy(serviceContact) && HasTruthy(serviceContact.d, f)) ==>
        forall j :: FirstTruthyAt(AllContactFields(sourceContacts), f, j) ==>
          Truthy(sourceContacts[j]) && r.Map? && f in r.d.m && r.d.m[f] == sourceContacts[j].d.m[f]
    ensures var r := MergedContact(serviceContact, sourceContacts);
      r.Map? ==> (f in r.d.m <==>
        HasTruthy(ContactFields(serviceContact), f) ||
        exists j :: 0 <= j < |sourceContacts| && Truthy(sourceContacts[j]) && HasTruthy(sourceContacts[j].d, f))
    ensures MergedContact(serviceContact, sourceContacts) == PyNone <==>
      forall k :: NowhereTruthy(ContactFields(serviceContact), AllContactFields(sourceContacts), k)
  {
    var fields := AllContactFields(sourceContacts);
    PriorityMergeKey(ContactFields(serviceContact), fields, f);
    PriorityMergeEmpty(ContactFields(serviceContact), fields);
    forall j | 0 <= j < |sourceContacts| && HasTruthy(fields[j], f)
      ensures Truthy(sourceContacts[j])
    {
    }
  }

  /** `_merge_contact_info` (metadata.py:300-317). */
  method MergeContactInfo(serviceContact: Value, sourceContacts: seq<Value>) returns (r: Value)
    requires ContactShaped(serviceContact)
    requires forall i :: 0 <= i < |sourceContacts| ==> ContactShaped(sourceContacts[i])
    ensures r == MergedContact(serviceContact, sourceContacts)
  {
    ghost var fields := AllContactFields(sourceContacts);
    var mergedContact := Empty();
    for s := 0 to |sourceContacts|
      invariant mergedContact == Aggregate(fields[..s])
    {
      assert fields[..s + 1][..s] == fields[..s];
      var sourceContact := sourceContacts[s];
      if Truthy(sourceContact) {
        mergedContact := FillMissingFrom(mergedContact, sourceContact.d);
      }
    }
    assert fields[..|sourceContacts|] == fields;
    if Truthy(serviceContact) {
      mergedContact := OverwriteFrom(mergedContact, serviceContact.d);
    }
    r := if mergedContact.keys != [] then Map(mergedContact) else PyNone;
  }

  /** `md.get('contact', {})`. */
  function ContactOf(md: Dict<Value>): Value {
    Get(md, "contact", Map(Empty()))
  }

  function SourceContacts(sources: seq<Dict<Value>>): (r: seq<Value>)
    ensures |r| == |sources|
    ensures forall i :: 0 <= i < |sources| ==> r[i] == ContactOf(sources[i])
  {
    seq(|sources|, i requires 0 <= i < |sources| => ContactOf(sources[i]))
  }

  /** Every contact the merge reads is a dict or falsy. */
  ghost predicate ContactsShaped(service: Dict<Value>, sources: seq<Dict<Value>>) {
    && ContactShaped(ContactOf(service))
    && forall i :: 0 <= i < |sources| ==> ContactShaped(ContactOf(sources[i]))
  }

  predicate SomeSourceHasContact(sources: seq<Dict<Value>>) {
    exists i :: 0 <= i < |sources| && "contact" in sources[i].m
  }

  /** What `merge_metadata` returns. */
  function MergedMetadata(service: Dict<Value>, sources: seq<Dict<Value>>): (r: Dict<Value>)
    requires service.Valid() && AllValid(sources) && ContactsShaped(service, sources)
    ensures r.Valid()
  {
    var merged := PriorityMerge(service, sources);
    if "contact" in merged.m || SomeSourceHasContact(sources) then
      Set(merged, "contact", MergedContact(ContactOf(service), SourceContacts(sources)))
    else merged
  }

  /** `merge_metadata`: keys other than `contact` follow the priority rule of
      `merge_layer_metadata`; `contact` is present exactly when the override
      has a truthy contact or some fetched record has a `contact` key, and then
      it holds the field-wise merge of all contacts, never the override's raw value. */
  lemma MergedMetadataKey(service: Dict<Value>, sources: seq<Dict<Value>>, k: string)
    requires service.Valid() && AllValid(sources) && ContactsShaped(service, sources)
    ensures k != "contact" ==>
      (k in MergedMetadata(service, sources).m <==> k in PriorityMerge(service, sources).m) &&
      (k in MergedMetadata(service, sources).m ==>
        MergedMetadata(service, sources).m[k] == PriorityMerge(service, sources).m[k])
    ensures "contact" in MergedMetadata(service, sources).m <==>
      HasTruthy(service, "contact") || SomeSourceHasContact(sources)
    ensures "contact" in MergedMetadata(service, sources).m ==>
      MergedMetadata(service, sources).m["contact"] == MergedContact(ContactOf(service), SourceContacts(sources))
  {
    PriorityMergeKey(service, sources, "contact");
  }

  /** `merge_metadata` (metadata.py:169-201). Its first two loops are the
      code of `merge_layer_metadata`, line for line. */
  method MergeMetadata(service: Dict<Value>, sources: seq<Dict<Value>>) returns (merged: Dict<Value>)
    requires service.Valid() && AllValid(sources) && ContactsShaped(service, sources)
    ensures merged == MergedMetadata(service, sources)
  {
    merged := MergeLayerMetadata(service, sources);
    if "contact" in merged.m || SomeSourceHasContact(sources) {
      var contact := MergeContactInfo(ContactOf(service), SourceContacts(sources));
      merged := Set(merged, "contact", contact);
    }
  }
}
