# MapProxy WMS metadata reconciliation, modelled in Dafny

MapProxy can fill in service and layer metadata (title, abstract, contact and
so on) on its own. It reads the GetCapabilities documents of the WMS sources
it proxies. `WMSMetadataManager` in `mapproxy/source/metadata.py` does this
work. Three parts of it are modelled here:

- **The capabilities cache.** `get_source_metadata` fetches a source once per
  (url, version, username, password). It keeps only successful results.
  Every failure is answered with `{'service': {}, 'layers': {}}`.
- **Cleaning and extraction.** `_clean_metadata` keeps a fixed whitelist of
  service fields that are truthy and not blank. `_extract_layers_metadata`
  builds a name → {title, abstract} table.
- **Resolution and merging.**
  - `_find_matching_layer_metadata` looks a layer up in three tiers: exact
    name, then ignoring case, then containment.
  - `merge_layer_metadata`, `merge_metadata` and `_merge_contact_info` merge by
    priority. Among the fetched records, the first truthy value of a key wins.
    A truthy value in the operator's own record then overrides it.
  - `get_layer_metadata` drives the rest: it fetches every source, resolves the
    layer in each, and merges what it found.

Each Python loop is a Dafny method with a loop and invariants. Each method is
proved equal to a recursive specification function over the same inputs, and
the lemmas state what those functions mean. The manager is a class. Its
`cache` field is a `map` keyed by the four-part cache key. A ghost field
`sent` logs every request the manager sends, so the contracts can say when
the cache spares a fetch.

Two types stand in for Python data:

- **Dicts.** A Python dict with string keys is `PyDict.Dict`: a key sequence
  in insertion order plus a map. This matters because the matching tiers and
  the merges follow the dict's iteration order. Assigning to an existing key
  keeps that key's position.
- **Values.** A value is `PyValue.Value`: None, a string, a list, a dict, or
  some other object with its truthiness and its `str()` text. `Truthy`
  follows Python's rules. `Strip` removes Python's whitespace characters.

Files:

- `optional.dfy`: `Option`.
- `pydict.dfy`: ordered dicts.
- `pyvalue.dfy`: values, truthiness, `strip`, ASCII `lower`, substring.
- `metadata_extract.dfy`: `_clean_metadata` and `_extract_layers_metadata`.
- `metadata_resolve.dfy`: `_find_matching_layer_metadata`.
- `metadata_merge.dfy`: `merge_layer_metadata`, `_merge_contact_info` and
  `merge_metadata`.
- `metadata_manager.dfy`: the cache, the request choice, `get_source_metadata`
  and `get_layer_metadata`.

The model follows the code as written. In particular:

- Cache entries never expire. There is no TTL.
- `keywords` is not turned into a keyword list. It is dropped like any other
  field that is not whitelisted.
- A layer's abstract is copied unchanged. It is not prefixed with the title.
- Among fetched records the first truthy value wins, not the last.
- The containment tier is case-sensitive and works in both directions: the
  query inside the key, or the key inside the query.
- `version` defaults to `1.1.1` and is always sent. `get_layer_metadata`
  always uses that default.
- A failed fetch returns `{'service': {}, 'layers': {}}`, not `{}`.
- Credentials embedded in the capabilities URL take precedence over the
  username and password arguments.

All source paths below are in `mapproxy/source/metadata.py`.

## Model

| member | source | states |
|---|---|---|
| PyDict.Set | mapproxy/source/metadata.py:134 | `d[k] = v` gives `k` the value `v` and changes no other key. A new key goes to the end of the iteration order; an existing key keeps its place. |
| PyValue.StripEmptyIffAllSpace | mapproxy/source/metadata.py:133 | `s.strip()` is empty exactly when every character of `s` is Python whitespace. |
| MetadataExtract.CleanedFields | mapproxy/source/metadata.py:114-136 | A falsy record cleans to `{}`. Otherwise a key is kept exactly when it is one of the six whitelisted fields and its value is truthy and not blank. Each kept value is the input's own value, and `keywords` never survives. |
| MetadataExtract.MeaningfulString | mapproxy/source/metadata.py:130-134 | A string field survives cleaning exactly when it holds a character that is not whitespace. |
| MetadataExtract.CleanMetadata | mapproxy/source/metadata.py:112-136 | The loop over the field mapping builds the cleaned record: exactly the whitelisted, truthy, non-blank fields, with their input values. |
| MetadataExtract.LayerEntry | mapproxy/source/metadata.py:156-161 | A layer's entry holds exactly its truthy `title` and `abstract`, copied unchanged. It is non-empty exactly when one of the two is truthy. |
| MetadataExtract.ExtractedNames | mapproxy/source/metadata.py:148-167 | A name is a key of the layer table exactly when some layer has that truthy name and a truthy title or abstract. |
| MetadataExtract.ExtractedLastWins | mapproxy/source/metadata.py:150-165 | A name maps to the entry of the last layer listed under it, so a later duplicate replaces an earlier one. |
| MetadataExtract.ExtractedFirstListed | mapproxy/source/metadata.py:150-165 | Every name in the table comes from a layer, so it has a first layer listed under it. |
| MetadataExtract.ExtractedOrder | mapproxy/source/metadata.py:150-165 | The table's keys are in the order in which the names first appear among the listed layers. A later duplicate replaces the entry but keeps the name's place. This is the order the ignoring-case and containment tiers scan. |
| MetadataExtract.ListedNamesNonEmpty | mapproxy/source/metadata.py:151-153 | The table never has the empty name as a key. |
| MetadataExtract.ExtractLayersMetadata | mapproxy/source/metadata.py:138-167 | The loop over the layers builds exactly the table specified above. Every entry is a non-empty dict. |
| MetadataResolve.FirstMatch | mapproxy/source/metadata.py:262-270 | Scanning keys in order finds the first key that matches at the given tier, or reports that no key matches. |
| MetadataResolve.Resolve | mapproxy/source/metadata.py:253-272 | The answer is `{}` or a record stored in the table under some key. |
| MetadataResolve.ResolveTiers | mapproxy/source/metadata.py:253-272 | An empty name or table gives `{}`. An exact key wins. Otherwise the first key equal to the name ignoring case wins. Otherwise the first key that contains the name, or is contained in it, wins. Otherwise the answer is `{}`. |
| MetadataResolve.FindMatchingLayerMetadata | mapproxy/source/metadata.py:242-272 | The early-return loops compute exactly the tiered lookup, so the result is `{}` or a stored record. |
| MetadataMerge.AggregateHas | mapproxy/source/metadata.py:289-292 | After the loop over the fetched records, a key is present exactly when some record has a truthy value for it. |
| MetadataMerge.AggregateFirstTruthy | mapproxy/source/metadata.py:289-292 | Each such key holds the value of the first record, in list order, with a truthy value for it. |
| MetadataMerge.PriorityMergeKey | mapproxy/source/metadata.py:286-299 | A truthy override value wins. Otherwise a key is present exactly when some fetched record has a truthy value for it, and it takes the first such value. Every result value is truthy. |
| MetadataMerge.PriorityMergeEmpty | mapproxy/source/metadata.py:286-299 | The merged record is empty exactly when no input has a truthy value for any key. |
| MetadataMerge.FillMissingFrom | mapproxy/source/metadata.py:290-292 | One record's truthy values fill the keys that are still missing, in that record's key order. |
| MetadataMerge.OverwriteFrom | mapproxy/source/metadata.py:295-297 | The override's truthy values replace what is there, in the override's key order. |
| MetadataMerge.MergeLayerMetadata | mapproxy/source/metadata.py:274-299 | The two loops compute the priority merge above, and every value they keep is truthy. |
| MetadataMerge.MergedContact | mapproxy/source/metadata.py:317 | The merged contact is None or a non-empty dict, never `{}`. |
| MetadataMerge.MergedContactField | mapproxy/source/metadata.py:300-317 | A field takes the override contact's truthy value. Failing that, it takes the first truthy value among the truthy source contacts; falsy contacts are skipped. The result is None exactly when no contact has a truthy field. |
| MetadataMerge.MergeContactInfo | mapproxy/source/metadata.py:300-317 | The loops compute exactly the field-wise contact merge above. |
| MetadataMerge.MergedMetadataKey | mapproxy/source/metadata.py:181-201 | Keys other than `contact` follow the priority merge. `contact` is present exactly when the override has a truthy contact or some fetched record has a `contact` key. Its value is then always the field-wise merged contact, never the override's raw value. |
| MetadataMerge.MergeMetadata | mapproxy/source/metadata.py:169-201 | The code computes exactly the merged record described above. |
| MetadataManager.CapabilitiesRequest | mapproxy/source/metadata.py:61-72 | Credentials found in the URL win, and then the stripped URL is opened. Otherwise a given username or password is sent to the capabilities URL. Otherwise nothing is sent with it. No credentials are sent exactly when none are given. |
| MetadataManager.Attempt | mapproxy/source/metadata.py:56-90 | A successful fetch yields the cleaned service record and a layer table of non-empty valid entries. |
| MetadataManager.Lookup | mapproxy/source/metadata.py:52-97 | A cache lookup on a well-formed cache keeps the cache well-formed and yields a well-formed record. |
| MetadataManager.LookupOnce | mapproxy/source/metadata.py:52-97 | A hit returns the stored record, sends nothing and changes nothing. A miss sends exactly one request in the model (see "## Left out"). A successful miss adds exactly that key with the fetched record, so the next lookup is a hit. A failed miss returns the failure record `{'service': {}, 'layers': {}}` and leaves the cache unchanged (metadata.py:92-97). Existing entries are never altered. |
| MetadataManager.Collect | mapproxy/source/metadata.py:222-237 | Collecting over the source URLs keeps the cache well-formed and yields valid records. |
| MetadataManager.CollectBounds | mapproxy/source/metadata.py:222-237 | Collecting sends at most one request per source and finds at most one match per source. Every match is non-empty, and every cached entry is kept. |
| MetadataManager.CollectCached | mapproxy/source/metadata.py:52-54 | Once every source's key is cached, collecting sends no request and leaves the cache as it is. |
| MetadataManager.WMSMetadataManager.constructor | mapproxy/source/metadata.py:36-37 | A new manager has an empty cache and has sent nothing. |
| MetadataManager.WMSMetadataManager.GetSourceMetadata | mapproxy/source/metadata.py:39-97 | The result, the new cache and the requests sent are exactly those of one cache lookup under the four-part key. The result is always well-formed. |
| MetadataManager.WMSMetadataManager.SourceLayerMetadata | mapproxy/source/metadata.py:226-235 | One source is fetched with its configured credentials at version 1.1.1, and the layer is resolved in that source's table. |
| MetadataManager.WMSMetadataManager.CollectSourceLayerMetadata | mapproxy/source/metadata.py:222-237 | The collecting loop returns exactly the specified matches: one per source whose lookup found a non-empty record, in source order. The new cache and the requests sent are those the collection specifies. |
| MetadataManager.WMSMetadataManager.GetLayerMetadata | mapproxy/source/metadata.py:203-240 | A missing config or auth map counts as `{}`. The non-empty matches are collected in source order, each source looked up with its own credentials. The result is their priority merge under the layer config, and the cache and request log are those of the collection. |

## Left out

- HTTP transport is not modelled: `open_url`, `HTTPClient`, `HTTPClientError` and `auth_data_from_url` (metadata.py:24, :61-73). The model passes in a `Network` value of functions: the capabilities URL builder, the user-info splitter, and a fetch that fails (None) or yields a parsed document. A fetch therefore gives the same answer every time for the same request.
- `_build_capabilities_url` (metadata.py:99-110) is the `capabilitiesUrl` function of `Network`. It relies on `BaseRequest` and `url_decode`, which are not part of this model. The model does not capture that it sets the `service`, `version` and `request` parameters, overwriting any already in the URL.
- MetadataManager.LookupOnce: the request log records one request on every cache miss, even when the code would fail before sending. In the code, `_build_capabilities_url` (:57) and `auth_data_from_url` (:61) run inside the same `try`; if either raises, the miss returns the failure record without opening any URL. The model's `capabilitiesUrl` and `authFromUrl` are total functions, so that failure is folded into `fetch`, after the request is logged.
- The capabilities parser `wmsparse` (metadata.py:75-77) is not modelled. Its output is assumed to have the shape the code relies on: `metadata()` is a dict or falsy, and every layer name is a string or falsy (`ParsedCapabilities`). A parser exception is one of the fetch's failures.
- Logging (metadata.py:58, :89, :93, :96) has no effect on results and is left out.
- The module-level instance `metadata_manager` (metadata.py:321) is left out.
- Concurrent use of the cache is left out. The code has no locking.
- PyValue.Lower: only ASCII letters are lower-cased. Python's `str.lower()` also folds other Unicode letters.
- `str()` of values other than strings is not computed. An `Other` value carries its own text, and lists and dicts always print non-blank.
- MetadataManager.WMSMetadataManager.GetLayerMetadata: `layer_name` is a string. A `None` layer name behaves like the empty name, which the lookup already answers with `{}`.
- `auth_configs` entries are modelled as records with optional `username` and `password` strings. The code reads them with `.get`, so extra keys are ignored.
- MetadataMerge.MergeMetadata: contacts must be dicts or falsy (`ContactsShaped`). A truthy contact that is not a dict makes the Python code raise, and that path is not modelled.
- The cache map and the request log are not bounded. Python's dict has no size limit either.
