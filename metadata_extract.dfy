/** Turning the parser's output into the records the manager caches:
    `_clean_metadata` for the service record and `_extract_layers_metadata`
    for the layer table (mapproxy/source/metadata.py). */
module MetadataExtract {
  import opened PyDict
  import opened PyValue

  /** The whitelist of service fields, in the order `field_mapping` lists
      them. Every field is kept under its own name. */
  const ServiceFields: seq<string> :=
    ["title", "abstract", "online_resource", "fees", "access_constraints", "contact"]

  /** A field value survives cleaning when it is truthy and does not print blank. */
  predicate Meaningful(v: Value) {
    Truthy(v) && PrintsNonBlank(v)
  }

  /** The cleaned record once the first `n` whitelisted fields were considered. */
  function CleanedPrefix(md: Dict<Value>, n: nat): (r: Dict<Value>)
    requires n <= |ServiceFields|
    ensures r.Valid()
  {
    if n == 0 then Empty()
    else
      var acc := CleanedPrefix(md, n - 1);
      var f := ServiceFields[n - 1];
      if f in md.m && Meaningful(md.m[f]) then Set(acc, f, md.m[f]) else acc
  }

  /** The record `_clean_metadata` returns; the parser hands it a dict, or
      something falsy. */
  function Cleaned(metadata: Value): (r: Dict<Value>)
    requires Truthy(metadata) ==> metadata.Map?
    ensures r.Valid()
  {
    if !Truthy(metadata) then Empty() else CleanedPrefix(metadata.d, |ServiceFields|)
  }

  lemma {:induction false} CleanedPrefixField(md: Dict<Value>, n: nat, k: string)
    requires n <= |ServiceFields|
    ensures k in CleanedPrefix(md, n).m <==> k in ServiceFields[..n] && k in md.m && Meaningful(md.m[k])
    ensures k in CleanedPrefix(md, n).m ==> CleanedPrefix(md, n).m[k] == md.m[k]
  {
    if n > 0 {
      CleanedPrefixField(md, n - 1, k);
      assert ServiceFields[..n] == ServiceFields[..n - 1] + [ServiceFields[n - 1]];
    }
  }

  /** `_clean_metadata`: a falsy record gives `{}`; otherwise exactly the
      whitelisted fields whose value is truthy and not blank are kept, each
      with the very value it had, so `keywords` and every other field is dropped. */
  lemma CleanedFields(metadata: Value)
    requires Truthy(metadata) ==> metadata.Map?
    ensures !Truthy(metadata) ==> Cleaned(metadata) == Empty()
    ensures forall k :: k in Cleaned(metadata).m <==>
      Truthy(metadata) && k in ServiceFields && k in metadata.d.m && Meaningful(metadata.d.m[k])
    ensures forall k :: k in Cleaned(metadata).m ==> Cleaned(metadata).m[k] == metadata.d.m[k]
    ensures "keywords" !in Cleaned(metadata).m
  {
    if Truthy(metadata) {
      assert ServiceFields[..|ServiceFields|] == ServiceFields;
      forall k | true
        ensures k in Cleaned(metadata).m <==> k in ServiceFields && k in metadata.d.m && Meaningful(metadata.d.m[k])
        ensures k in Cleaned(metadata).m ==> Cleaned(metadata).m[k] == metadata.d.m[k]
      {
        CleanedPrefixField(metadata.d, |ServiceFields|, k);
      }
    }
  }

  /** A string field is kept exactly when it holds a character that is not
      whitespace: empty and whitespace-only strings are dropped. */
  lemma MeaningfulString(s: string)
    ensures Meaningful(Str(s)) <==> exists i :: 0 <= i < |s| && !IsSpace(s[i])
  {
    StripEmptyIffAllSpace(s);
  }

  /** `_clean_metadata` (metadata.py:112-136). */
  method CleanMetadata(metadata: Value) returns (cleaned: Dict<Value>)
    requires Truthy(metadata) ==> metadata.Map?
    ensures cleaned == Cleaned(metadata)
    ensures forall k :: k in cleaned.m <==>
      Truthy(metadata) && k in ServiceFields && k in metadata.d.m && Meaningful(metadata.d.m[k])
    ensures forall k :: k in cleaned.m ==> cleaned.m[k] == metadata.d.m[k]
  {
    if !Truthy(metadata) {
      return Empty();
    }
    cleaned := Empty();
    for i := 0 to |ServiceFields|
      invariant cleaned == CleanedPrefix(metadata.d, i)
    {
      var field := ServiceFields[i];
      if field in metadata.d.m && Truthy(metadata.d.m[field]) {
        var value := metadata.d.m[field];
        if Truthy(value) && PrintsNonBlank(value) {
          cleaned := Set(cleaned, field, value);
        }
      }
    }
    CleanedFields(metadata);
  }

  /** `layer.get(k)`. */
  function Field(layer: Dict<Value>, k: string): Value {
    Get(layer, k, PyNone)
  }

  /** The parser names layers with strings; a nameless layer has a falsy name. */
  predicate NameIsText(layer: Dict<Value>) {
    Field(layer, "name").Str? || !Truthy(Field(layer, "name"))
  }

  /** The layer's name as a table key. */
  function LayerName(layer: Dict<Value>): string {
    match Field(layer, "name")
    case Str(s) => s
    case _ => ""
  }

  /** The record built for one layer: its truthy `title` and `abstract`,
      copied unchanged and in that order. */
  function LayerEntry(layer: Dict<Value>): (r: Dict<Value>)
    ensures r.Valid()
    ensures forall k :: k in r.m <==> (k == "title" || k == "abstract") && Truthy(Field(layer, k))
    ensures forall k :: k in r.m ==> r.m[k] == Field(layer, k)
    ensures r.keys != [] <==> Truthy(Field(layer, "title")) || Truthy(Field(layer, "abstract"))
  {
    var title := Field(layer, "title");
    var abstr := Field(layer, "abstract");
    var withTitle := if Truthy(title) then Set(Empty(), "title", title) else Empty();
    if Truthy(abstr) then Set(withTitle, "abstract", abstr) else withTitle
  }

  /** The layer gets an entry: it has a name and some content. */
  predicate Listed(layer: Dict<Value>) {
    Truthy(Field(layer, "name")) && (Truthy(Field(layer, "title")) || Truthy(Field(layer, "abstract")))
  }

  predicate ListedAs(layer: Dict<Value>, name: string) {
    Listed(layer) && LayerName(layer) == name
  }

  /** Every record of a layer table is a valid, non-empty dict. */
  ghost predicate LayerTable(t: Dict<Dict<Value>>) {
    t.Valid() && forall k :: k in t.m ==> t.m[k].Valid() && t.m[k].keys != []
  }

  /** The table `_extract_layers_metadata` builds from `layers`. */
  function Extracted(layers: seq<Dict<Value>>): (r: Dict<Dict<Value>>)
    requires forall i :: 0 <= i < |layers| ==> NameIsText(layers[i])
    ensures LayerTable(r)
  {
    if layers == [] then Empty()
    else
      var acc := Extracted(layers[..|layers| - 1]);
      var layer := layers[|layers| - 1];
      if Listed(layer) then Set(acc, LayerName(layer), LayerEntry(layer)) else acc
  }

  /** `layers[i]` is the last layer listed under `name`. */
  ghost predicate LastListedAs(layers: seq<Dict<Value>>, name: string, i: int) {
    && 0 <= i < |layers|
    && ListedAs(layers[i], name)
    && forall j :: i < j < |layers| ==> !ListedAs(layers[j], name)
  }

  /** One more layer changes the table only when it is listed, and then only
      under its own name. */
  lemma ExtractedStep(layers: seq<Dict<Value>>, name: string)
    requires layers != []
    requires forall i :: 0 <= i < |layers| ==> NameIsText(layers[i])
    ensures var before := Extracted(layers[..|layers| - 1]);
      var last := layers[|layers| - 1];
      if ListedAs(last, name) then
        name in Extracted(layers).m && Extracted(layers).m[name] == LayerEntry(last)
      else
        (name in Extracted(layers).m <==> name in before.m) &&
        (name in before.m ==> Extracted(layers).m[name] == before.m[name])
  {
  }

  /** `_extract_layers_metadata`: the keys are exactly the names of the
      named layers with a truthy title or abstract. */
  lemma {:induction false} ExtractedNames(layers: seq<Dict<Value>>, name: string)
    requires forall i :: 0 <= i < |layers| ==> NameIsText(layers[i])
    ensures name in Extracted(layers).m <==> exists i :: 0 <= i < |layers| && ListedAs(layers[i], name)
  {
    if layers != [] {
      var n := |layers| - 1;
      var init := layers[..n];
      ExtractedNames(init, name);
      ExtractedStep(layers, name);
      assert forall i :: 0 <= i < n ==> init[i] == layers[i];
    }
  }

  /** `_extract_layers_metadata`: each name carries the entry of the last
      layer listed under it, so a later duplicate overwrites an earlier one. */
  lemma {:induction false} ExtractedLastWins(layers: seq<Dict<Value>>, name: string, i: int)
    requires forall i :: 0 <= i < |layers| ==> NameIsText(layers[i])
    requires LastListedAs(layers, name, i)
    ensures name in Extracted(layers).m && Extracted(layers).m[name] == LayerEntry(layers[i])
  {
    var n := |layers| - 1;
    ExtractedStep(layers, name);
    if i < n {
      var init := layers[..n];
      assert init[i] == layers[i];
      assert !ListedAs(layers[n], name);
      assert LastListedAs(init, name, i);
      ExtractedLastWins(init, name, i);
    }
  }

  /** A listed layer's name is a non-empty string. */
  lemma ListedNamesNonEmpty(layers: seq<Dict<Value>>, name: string)
    requires forall i :: 0 <= i < |layers| ==> NameIsText(layers[i])
    ensures name in Extracted(layers).m ==> name != ""
  {
    ExtractedNames(layers, name);
  }

  /** `layers[i]` is the first layer listed under `name`. */
  ghost predicate FirstListedAt(layers: seq<Dict<Value>>, name: string, i: int) {
    && 0 <= i < |layers|
    && ListedAs(layers[i], name)
    && forall j :: 0 <= j < i ==> !ListedAs(layers[j], name)
  }

  /** A name already in the table before the last layer was first listed
      before it. */
  lemma FirstListedInInit(layers: seq<Dict<Value>>, name: string, i: int)
    requires layers != []
    requires forall t :: 0 <= t < |layers| ==> NameIsText(layers[t])
    requires name in Extracted(layers[..|layers| - 1]).m
    requires FirstListedAt(layers, name, i)
    ensures i < |layers| - 1 && FirstListedAt(layers[..|layers| - 1], name, i)
  {
    var n := |layers| - 1;
    var init := layers[..n];
    ExtractedNames(init, name);
    var j :| 0 <= j < n && ListedAs(init[j], name);
    assert init[j] == layers[j];
    assert forall t :: 0 <= t <= i ==> init[t] == layers[t];
  }

  /** A name not in the table before the last layer is listed first by it. */
  lemma FirstListedLast(layers: seq<Dict<Value>>, name: string, i: int)
    requires layers != []
    requires forall t :: 0 <= t < |layers| ==> NameIsText(layers[t])
    requires name !in Extracted(layers[..|layers| - 1]).m
    requires FirstListedAt(layers, name, i)
    ensures i == |layers| - 1
  {
    var n := |layers| - 1;
    var init := layers[..n];
    ExtractedNames(init, name);
    forall j | 0 <= j < n
      ensures !ListedAs(layers[j], name)
    {
      assert init[j] == layers[j];
    }
  }

  /** Every name in the table has a first layer listed under it. */
  lemma {:induction false} ExtractedFirstListed(layers: seq<Dict<Value>>, name: string)
    requires forall t :: 0 <= t < |layers| ==> NameIsText(layers[t])
    requires name in Extracted(layers).m
    ensures exists i :: FirstListedAt(layers, name, i)
  {
    var n := |layers| - 1;
    var init := layers[..n];
    assert forall t :: 0 <= t < n ==> NameIsText(init[t]) && init[t] == layers[t];
    if name in Extracted(init).m {
      ExtractedFirstListed(init, name);
      var i :| FirstListedAt(init, name, i);
      assert FirstListedAt(layers, name, i);
    } else {
      ExtractedStep(layers, name);
      ExtractedNames(init, name);
      assert FirstListedAt(layers, name, n);
    }
  }

  /** `_extract_layers_metadata`: the table lists its names in the order in
      which they first appear among the listed layers. */
  lemma {:induction false} ExtractedOrder(layers: seq<Dict<Value>>, a: int, b: int, ia: int, ib: int)
    requires forall t :: 0 <= t < |layers| ==> NameIsText(layers[t])
    requires 0 <= a < b < |Extracted(layers).keys|
    requires FirstListedAt(layers, Extracted(layers).keys[a], ia)
    requires FirstListedAt(layers, Extracted(layers).keys[b], ib)
    ensures ia < ib
  {
    var n := |layers| - 1;
    var init := layers[..n];
    var before := Extracted(init);
    var keys := Extracted(layers).keys;
    var last := layers[n];
    assert forall t :: 0 <= t < n ==> NameIsText(init[t]);
    if b < |before.keys| {
      assert keys[a] == before.keys[a] && keys[b] == before.keys[b];
      FirstListedInInit(layers, keys[a], ia);
      FirstListedInInit(layers, keys[b], ib);
      ExtractedOrder(init, a, b, ia, ib);
    } else {
      assert Listed(last) && LayerName(last) !in before.m && keys == before.keys + [LayerName(last)];
      assert keys[a] == before.keys[a];
      FirstListedInInit(layers, keys[a], ia);
      FirstListedLast(layers, keys[b], ib);
    }
  }

  /** `_extract_layers_metadata` (metadata.py:138-167). */
  method ExtractLayersMetadata(layers: seq<Dict<Value>>) returns (table: Dict<Dict<Value>>)
    requires forall i :: 0 <= i < |layers| ==> NameIsText(layers[i])
    ensures table == Extracted(layers)
    ensures LayerTable(table)
  {
    table := Empty();
    for i := 0 to |layers|
      invariant table == Extracted(layers[..i])
    {
      assert layers[..i + 1][..i] == layers[..i];
      var layer := layers[i];
      var layerName := Field(layer, "name");
      if !Truthy(layerName) {
        continue;
      }
      var layerMetadata := Empty();
      if Truthy(Field(layer, "title")) {
        layerMetadata := Set(layerMetadata, "title", Field(layer, "title"));
      }
      if Truthy(Field(layer, "abstract")) {
        layerMetadata := Set(layerMetadata, "abstract", Field(layer, "abstract"));
      }
      if layerMetadata.keys != [] {
        table := Set(table, layerName.s, layerMetadata);
      }
    }
    assert layers[..|layers|] == layers;
  }
}
