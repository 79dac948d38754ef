/** `WMSMetadataManager` (mapproxy/source/metadata.py): fetching a source's
    capabilities once per (url, version, username, password), remembering only
    successful results, and collecting a layer's metadata from several sources. */
module MetadataManager {
  import opened Optional
  import opened PyDict
  import opened PyValue
  import opened MetadataExtract
  import opened MetadataResolve
  import opened MetadataMerge

  /** The version `get_source_metadata` asks for unless told otherwise; it is
      the one `get_layer_metadata` always uses. */
  const DefaultVersion: string := "1.1.1"

  /** The cache key: the four arguments of `get_source_metadata`. */
  datatype CacheKey = CacheKey(url: string, version: string, username: Option<string>, password: Option<string>)

  /** `{'service': ..., 'layers': ...}`. */
  datatype SourceMetadata = SourceMetadata(service: Dict<Value>, layers: Dict<Dict<Value>>)

  /** `{'service': {}, 'layers': {}}`, the answer to any failure. */
  function FailedSource(): (r: SourceMetadata)
    ensures r.service.keys == [] && r.layers.keys == []
  {
    SourceMetadata(Empty(), Empty())
  }

  /** A service record and a layer table as cleaning and extraction leave them. */
  ghost predicate WellFormed(md: SourceMetadata) {
    md.service.Valid() && LayerTable(md.layers)
  }

  /** What the capabilities parser yields: `metadata()` is a dict (or falsy)
      and every layer of `layers_list()` is named by a string (or not at all). */
  datatype Capabilities = Capabilities(metadata: Value, layers: seq<Dict<Value>>)
  {
    predicate Parsed() {
      && (Truthy(metadata) ==> metadata.Map?)
      && forall i :: 0 <= i < |layers| ==> NameIsText(layers[i])
    }
  }

  type ParsedCapabilities = c: Capabilities | c.Parsed() witness Capabilities(PyNone, [])

  /** A user name and password sent with a request. */
  datatype Credentials = Credentials(username: Option<string>, password: Option<string>)

  /** `auth_data_from_url(url)`: the URL without its user info, and the user
      name and password it carried. */
  datatype UrlAuth = UrlAuth(cleanUrl: string, username: Option<string>, password: Option<string>)

  /** One HTTP request for a capabilities document. */
  datatype Request = Request(url: string, credentials: Option<Credentials>)

  /** The code the manager calls but that is not modelled: the URL builder,
      the user-info splitter, and transport plus parsing, which either fail
      (None) or yield the parsed document. */
  datatype Network = Network(
    capabilitiesUrl: (string, string) -> string,
    authFromUrl: string -> UrlAuth,
    fetch: Request -> Option<ParsedCapabilities>)

  /** A user name or password counts when it is a non-empty string. */
  predicate Given(s: Option<string>) {
    s.Some? && s.value != ""
  }

  /** The request `get_source_metadata` sends: credentials found in the URL
      win over the username and password arguments, which win over no
      authentication; with URL credentials the stripped URL is opened. */
  function CapabilitiesRequest(capabilitiesUrl: string, fromUrl: UrlAuth,
                               username: Option<string>, password: Option<string>): (r: Request)
    ensures Given(fromUrl.username) || Given(fromUrl.password) ==>
      r == Request(fromUrl.cleanUrl, Some(Credentials(fromUrl.username, fromUrl.password)))
    ensures !(Given(fromUrl.username) || Given(fromUrl.password)) ==> r.url == capabilitiesUrl
    ensures !(Given(fromUrl.username) || Given(fromUrl.password)) && (Given(username) || Given(password)) ==>
      r.credentials == Some(Credentials(username, password))
    ensures r.credentials.None? <==>
      !(Given(fromUrl.username) || Given(fromUrl.password) || Given(username) || Given(password))
  {
    if Given(fromUrl.username) || Given(fromUrl.password) then
      Request(fromUrl.cleanUrl, Some(Credentials(fromUrl.username, fromUrl.password)))
    else if Given(username) || Given(password) then
      Request(capabilitiesUrl, Some(Credentials(username, password)))
    else
      Request(capabilitiesUrl, None)
  }

  /** The request a cache miss on `key` sends. */
  function RequestFor(key: CacheKey, net: Network): Request {
    var capabilitiesUrl := net.capabilitiesUrl(key.url, key.version);
    CapabilitiesRequest(capabilitiesUrl, net.authFromUrl(capabilitiesUrl), key.username, key.password)
  }

  /** What a cache miss on `key` yields: nothing on failure, otherwise the
      cleaned service record and the extracted layer table. */
  function Attempt(key: CacheKey, net: Network): (r: Option<SourceMetadata>)
    ensures r.Some? ==> WellFormed(r.value)
  {
    match net.fetch(RequestFor(key, net))
    case None => None
    case Some(caps) => Some(SourceMetadata(Cleaned(caps.metadata), Extracted(caps.layers)))
  }

  type Cache = map<CacheKey, SourceMetadata>

  ghost predicate CacheWellFormed(cache: Cache) {
    forall key :: key in cache ==> WellFormed(cache[key])
  }

  /** The outcome of one `get_source_metadata` call: its result, the cache
      after it, and the requests it sent. */
  datatype Step = Step(result: SourceMetadata, cache: Cache, sent: seq<Request>)

  function Lookup(cache: Cache, key: CacheKey, net: Network): (s: Step)
    ensures CacheWellFormed(cache) ==> CacheWellFormed(s.cache) && WellFormed(s.result)
  {
    if key in cache then Step(cache[key], cache, [])
    else
      match Attempt(key, net)
      case None => Step(FailedSource(), cache, [RequestFor(key, net)])
      case Some(md) => Step(md, cache[key := md], [RequestFor(key, net)])
  }

  /** A cache hit sends nothing and changes nothing; a miss sends one request,
      and a second lookup of the same key then answers from the cache exactly
      when the first one succeeded. */
  lemma LookupOnce(cache: Cache, key: CacheKey, net: Network)
    ensures key in cache ==> Lookup(cache, key, net) == Step(cache[key], cache, [])
    ensures key !in cache ==> Lookup(cache, key, net).sent == [RequestFor(key, net)]
    ensures (key !in cache && Attempt(key, net).Some?) ==>
      Lookup(cache, key, net).result == Attempt(key, net).value &&
      Lookup(cache, key, net).cache == cache[key := Attempt(key, net).value]
    ensures var first := Lookup(cache, key, net);
      var second := Lookup(first.cache, key, net);
      (key !in cache && Attempt(key, net).Some?) ==> second == Step(first.result, first.cache, [])
    ensures var first := Lookup(cache, key, net);
      (key !in cache && Attempt(key, net).None?) ==> first.cache == cache && first.result == FailedSource()
    ensures forall other :: other in cache ==>
      other in Lookup(cache, key, net).cache && Lookup(cache, key, net).cache[other] == cache[other]
  {
  }

  /** `auth_configs[url]`: the `username` and `password` entries, None when missing. */
  datatype AuthConfig = AuthConfig(username: Option<string>, password: Option<string>)

  function AuthFor(authConfigs: map<string, AuthConfig>, url: string): AuthConfig {
    if url in authConfigs then authConfigs[url] else AuthConfig(None, None)
  }

  /** The key `get_layer_metadata` looks `url` up under. */
  function KeyFor(authConfigs: map<string, AuthConfig>, url: string): CacheKey {
    var auth := AuthFor(authConfigs, url);
    CacheKey(url, DefaultVersion, auth.username, auth.password)
  }

  /** The outcome of the collecting loop of `get_layer_metadata` over `urls`:
      the non-empty matches in source order, the cache after it, and the
      requests sent. */
  datatype Collection = Collection(matches: seq<Dict<Value>>, cache: Cache, sent: seq<Request>)

  function Collect(cache: Cache, layerName: string, urls: seq<string>,
                   authConfigs: map<string, AuthConfig>, net: Network): (c: Collection)
    requires CacheWellFormed(cache)
    ensures CacheWellFormed(c.cache) && AllValid(c.matches)
    decreases |urls|
  {
    if urls == [] then Collection([], cache, [])
    else
      var step := Lookup(cache, KeyFor(authConfigs, urls[0]), net);
      var found := Resolve(layerName, step.result.layers);
      var rest := Collect(step.cache, layerName, urls[1..], authConfigs, net);
      Collection((if found.keys != [] then [found] else []) + rest.matches, rest.cache, step.sent + rest.sent)
  }

  lemma CollectUnfold(cache: Cache, layerName: string, urls: seq<string>,
                      authConfigs: map<string, AuthConfig>, net: Network, i: nat)
    requires CacheWellFormed(cache) && i < |urls|
    ensures var step := Lookup(cache, KeyFor(authConfigs, urls[i]), net);
      var found := Resolve(layerName, step.result.layers);
      var rest := Collect(step.cache, layerName, urls[i + 1..], authConfigs, net);
      Collect(cache, layerName, urls[i..], authConfigs, net)
        == Collection((if found.keys != [] then [found] else []) + rest.matches, rest.cache, step.sent + rest.sent)
  {
    assert urls[i..][1..] == urls[i + 1..];
  }

  lemma AppendAssoc<T>(a: seq<T>, b: seq<T>, c: seq<T>)
    ensures a + (b + c) == (a + b) + c
  {
  }

  /** Collecting keeps every cached entry, finds at most one match per source
      and sends at most one request per source. */
  lemma {:induction false} CollectBounds(cache: Cache, layerName: string, urls: seq<string>,
                                         authConfigs: map<string, AuthConfig>, net: Network)
    requires CacheWellFormed(cache)
    decreases |urls|
    ensures var c := Collect(cache, layerName, urls, authConfigs, net);
      && |c.matches| <= |urls|
      && |c.sent| <= |urls|
      && (forall key :: key in cache ==> key in c.cache && c.cache[key] == cache[key])
      && (forall i :: 0 <= i < |c.matches| ==> c.matches[i].keys != [])
  {
    if urls != [] {
      var step := Lookup(cache, KeyFor(authConfigs, urls[0]), net);
      LookupOnce(cache, KeyFor(authConfigs, urls[0]), net);
      CollectBounds(step.cache, layerName, urls[1..], authConfigs, net);
    }
  }

  /** Once every source's key is cached, collecting sends nothing and leaves
      the cache as it is. */
  lemma {:induction false} CollectCached(cache: Cache, layerName: string, urls: seq<string>,
                                         authConfigs: map<string, AuthConfig>, net: Network)
    requires CacheWellFormed(cache)
    requires forall i :: 0 <= i < |urls| ==> KeyFor(authConfigs, urls[i]) in cache
    decreases |urls|
    ensures Collect(cache, layerName, urls, authConfigs, net).sent == []
    ensures Collect(cache, layerName, urls, authConfigs, net).cache == cache
  {
    if urls != [] {
      assert forall i :: 0 <= i < |urls[1..]| ==> urls[1..][i] == urls[i + 1];
      CollectCached(cache, layerName, urls[1..], authConfigs, net);
    }
  }

  /** The manager; only the cache is state. */
  class WMSMetadataManager {
    var cache: Cache
    /** Every request sent so far, in order. */
    ghost var sent: seq<Request>

    ghost predicate Valid()
      reads this
    {
      CacheWellFormed(cache)
    }

    constructor ()
      ensures Valid() && cache == map[] && sent == []
    {
      cache := map[];
      sent := [];
    }

    /** `get_source_metadata` (metadata.py:39-97). */
    method GetSourceMetadata(url: string, version: string, username: Option<string>, password: Option<string>,
                             net: Network) returns (r: SourceMetadata)
      requires Valid()
      modifies this
      ensures Valid() && WellFormed(r)
      ensures var step := Lookup(old(cache), CacheKey(url, version, username, password), net);
        r == step.result && cache == step.cache && sent == old(sent) + step.sent
    {
      var key := CacheKey(url, version, username, password);
      if key in cache {
        return cache[key];
      }
      var capabilitiesUrl := net.capabilitiesUrl(url, version);
      var request := CapabilitiesRequest(capabilitiesUrl, net.authFromUrl(capabilitiesUrl), username, password);
      sent := sent + [request];
      var response := net.fetch(request);
      if response.None? {
        return FailedSource();
      }
      var service := CleanMetadata(response.value.metadata);
      var layers := ExtractLayersMetadata(response.value.layers);
      r := SourceMetadata(service, layers);
      cache := cache[key := r];
    }

    /** One iteration of the collecting loop of `get_layer_metadata`
        (metadata.py:226-235): fetch `url` with its configured credentials and
        look `layerName` up in its layer table. */
    method SourceLayerMetadata(layerName: string, url: string, auths: map<string, AuthConfig>,
                               net: Network) returns (found: Dict<Value>)
      requires Valid()
      modifies this
      ensures Valid()
      ensures var step := Lookup(old(cache), KeyFor(auths, url), net);
        && found == Resolve(layerName, step.result.layers)
        && cache == step.cache
        && sent == old(sent) + step.sent
    {
      var auth := AuthFor(auths, url);
      var sourceMetadata := GetSourceMetadata(url, DefaultVersion, auth.username, auth.password, net);
      found := FindMatchingLayerMetadata(layerName, sourceMetadata.layers);
    }

    /** The collecting loop of `get_layer_metadata` (metadata.py:222-237):
        the non-empty matches of `layerName`, source by source. */
    method CollectSourceLayerMetadata(layerName: string, sourceUrls: seq<string>,
                                      auths: map<string, AuthConfig>, net: Network)
      returns (sourceLayerMetadata: seq<Dict<Value>>)
      requires Valid()
      modifies this
      ensures Valid()
      ensures var c := Collect(old(cache), layerName, sourceUrls, auths, net);
        sourceLayerMetadata == c.matches && cache == c.cache && sent == old(sent) + c.sent
    {
      sourceLayerMetadata := [];
      ghost var whole := Collect(cache, layerName, sourceUrls, auths, net);
      ghost var rest := whole;
      ghost var log := [];
      ghost var sentBefore := sent;
      assert sourceUrls[0..] == sourceUrls;
      for i := 0 to |sourceUrls|
        invariant Valid()
        invariant rest == Collect(cache, layerName, sourceUrls[i..], auths, net)
        invariant sent == sentBefore + log
        invariant whole.matches == sourceLayerMetadata + rest.matches
        invariant whole.cache == rest.cache
        invariant whole.sent == log + rest.sent
      {
        ghost var step := Lookup(cache, KeyFor(auths, sourceUrls[i]), net);
        ghost var tail := Collect(step.cache, layerName, sourceUrls[i + 1..], auths, net);
        CollectUnfold(cache, layerName, sourceUrls, auths, net, i);
        var layerMetadata := SourceLayerMetadata(layerName, sourceUrls[i], auths, net);
        AppendAssoc(sentBefore, log, step.sent);
        AppendAssoc(log, step.sent, tail.sent);
        log := log + step.sent;
        if layerMetadata.keys != [] {
          AppendAssoc(sourceLayerMetadata, [layerMetadata], tail.matches);
          sourceLayerMetadata := sourceLayerMetadata + [layerMetadata];
        } else {
          assert [] + tail.matches == tail.matches;
        }
        rest := tail;
      }
      assert sourceUrls[|sourceUrls|..] == [];
      assert sourceLayerMetadata + [] == sourceLayerMetadata;
    }

    /** `get_layer_metadata` (metadata.py:203-240). */
    method GetLayerMetadata(layerName: string, sourceUrls: seq<string>, layerConfig: Option<Dict<Value>>,
                            authConfigs: Option<map<string, AuthConfig>>, net: Network) returns (r: Dict<Value>)
      requires Valid()
      requires layerConfig.Some? ==> layerConfig.value.Valid()
      modifies this
      ensures Valid()
      ensures var config := if layerConfig.Some? then layerConfig.value else Empty();
        var auths := if authConfigs.Some? then authConfigs.value else map[];
        var c := Collect(old(cache), layerName, sourceUrls, auths, net);
        && r == PriorityMerge(config, c.matches)
        && cache == c.cache
        && sent == old(sent) + c.sent
    {
      var config := if layerConfig.Some? then layerConfig.value else Empty();
      var auths := if authConfigs.Some? then authConfigs.value else map[];
      var sourceLayerMetadata := CollectSourceLayerMetadata(layerName, sourceUrls, auths, net);
      r := MergeLayerMetadata(config, sourceLayerMetadata);
    }
  }
}
