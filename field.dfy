/**
 * The field class `ACF_Field_Canto`: resolving a stored filename to an asset
 * (search, then a two-pass exact match), resolving an id by probing the
 * image, video and document endpoints, both cached as transients, and the
 * conversion of a resolved asset to the field's return format.
 */
module Field {
  import opened Php
  import opened Wp
  import opened Asset
  import opened Store

  /** The endpoints tried for an asset id, in order. */
  const AssetEndpoints: seq<string> := ["image", "video", "document"]

  /** `'canto_filename_' . md5($filename)` */
  function FilenameKey(net: Net, filename: string): string {
    "canto_filename_" + net.md5(filename)
  }

  /** `'canto_asset_' . $asset_id` */
  function AssetKey(assetId: string): string {
    "canto_asset_" + assetId
  }

  function FilenameSearchUrl(config: Config, net: Net, filename: string): string {
    config.Origin() + "/api/v1/search?keyword=" + net.urlencode(filename) + "&limit=50"
  }

  function AssetUrl(config: Config, endpoint: string, assetId: string): string {
    config.Origin() + "/api/v1/" + endpoint + "/" + assetId
  }

  /** The probe URLs for an id, one per endpoint. */
  function AssetUrls(config: Config, assetId: string): (urls: seq<string>)
    ensures |urls| == |AssetEndpoints|
  {
    seq(|AssetEndpoints|, i requires 0 <= i < |AssetEndpoints| => AssetUrl(config, AssetEndpoints[i], assetId))
  }

  /** What each id probe yields: the accepted decoded payload, or nothing. */
  function AssetHits(config: Config, net: Net, assetId: string): (hits: seq<Option<Value>>)
    ensures |hits| == |AssetEndpoints|
  {
    var urls := AssetUrls(config, assetId);
    seq(|urls|, i requires 0 <= i < |urls| => AcceptPayload(net.decode, net.remote(urls[i])))
  }

  // ---------------------------------------------------------------------
  // The two-pass match over search results
  // ---------------------------------------------------------------------

  /** The result normalises and its filename (first pass) or its name
      (second pass) is identical (`===`) to the searched string. */
  predicate Matches(env: Env, item: Value, filename: string, byName: bool) {
    var a := SearchRecord(env, item);
    a.Some? && (if byName then a.value.name == Str(filename) else a.value.filename == Some(Str(filename)))
  }

  /** One pass: the first matching result, normalised. */
  function FirstMatch(env: Env, items: seq<Value>, filename: string, byName: bool): Option<Asset> {
    if items == [] then None
    else if Matches(env, items[0], filename, byName) then SearchRecord(env, items[0])
    else FirstMatch(env, items[1..], filename, byName)
  }

  function TwoPassMatch(env: Env, items: seq<Value>, filename: string): Option<Asset> {
    var byFilename := FirstMatch(env, items, filename, false);
    if byFilename.Some? then byFilename else FirstMatch(env, items, filename, true)
  }

  lemma {:induction false} FirstMatchIsEarliest(env: Env, items: seq<Value>, filename: string, byName: bool)
    ensures FirstMatch(env, items, filename, byName).None? <==>
              forall j | 0 <= j < |items| :: !Matches(env, items[j], filename, byName)
    ensures FirstMatch(env, items, filename, byName).Some? ==>
              exists k | 0 <= k < |items| ::
                Matches(env, items[k], filename, byName)
                && FirstMatch(env, items, filename, byName) == SearchRecord(env, items[k])
                && forall j | 0 <= j < k :: !Matches(env, items[j], filename, byName)
  {
    if items != [] {
      FirstMatchIsEarliest(env, items[1..], filename, byName);
      if !Matches(env, items[0], filename, byName) {
        if FirstMatch(env, items[1..], filename, byName).Some? {
          var k :| 0 <= k < |items[1..]| && Matches(env, items[1..][k], filename, byName)
                   && FirstMatch(env, items[1..], filename, byName) == SearchRecord(env, items[1..][k])
                   && forall j | 0 <= j < k :: !Matches(env, items[1..][j], filename, byName);
          forall j | 0 <= j < k + 1 ensures !Matches(env, items[j], filename, byName) {
            if j > 0 { assert items[j] == items[1..][j - 1]; }
          }
          assert items[k + 1] == items[1..][k];
        } else {
          forall j | 0 <= j < |items| ensures !Matches(env, items[j], filename, byName) {
            if j > 0 { assert items[j] == items[1..][j - 1]; }
          }
        }
      }
    }
  }

  /** The earliest result whose filename matches wins, even when an earlier
      result's name matches; only when no filename matches does the earliest
      name match win; with neither, nothing is found. */
  lemma TwoPassMatchSpec(env: Env, items: seq<Value>, filename: string)
    ensures var r := TwoPassMatch(env, items, filename);
            && (r.None? <==> forall j | 0 <= j < |items| ::
                  !Matches(env, items[j], filename, false) && !Matches(env, items[j], filename, true))
            && ((exists k | 0 <= k < |items| :: Matches(env, items[k], filename, false)) ==>
                  exists k | 0 <= k < |items| ::
                    Matches(env, items[k], filename, false)
                    && r == SearchRecord(env, items[k]) && r.value.filename == Some(Str(filename))
                    && forall j | 0 <= j < k :: !Matches(env, items[j], filename, false))
            && ((forall j | 0 <= j < |items| :: !Matches(env, items[j], filename, false)) && r.Some? ==>
                  exists k | 0 <= k < |items| ::
                    Matches(env, items[k], filename, true)
                    && r == SearchRecord(env, items[k]) && r.value.name == Str(filename)
                    && forall j | 0 <= j < k :: !Matches(env, items[j], filename, true))
  {
    FirstMatchIsEarliest(env, items, filename, false);
    FirstMatchIsEarliest(env, items, filename, true);
  }

  /** The two `foreach` passes of `find_asset_by_filename`, each returning
      at its first match. */
  method MatchResults(env: Env, items: seq<Value>, filename: string) returns (r: Option<Asset>)
    ensures r == TwoPassMatch(env, items, filename)
  {
    var i := 0;
    while i < |items|
      invariant 0 <= i <= |items|
      invariant FirstMatch(env, items, filename, false) == FirstMatch(env, items[i..], filename, false)
    {
      assert items[i..][1..] == items[i + 1..];
      var asset := SearchRecord(env, items[i]);
      if asset.Some? && asset.value.filename == Some(Str(filename)) {
        return asset;
      }
      i := i + 1;
    }
    i := 0;
    while i < |items|
      invariant 0 <= i <= |items|
      invariant FirstMatch(env, items, filename, false) == None
      invariant FirstMatch(env, items, filename, true) == FirstMatch(env, items[i..], filename, true)
    {
      assert items[i..][1..] == items[i + 1..];
      var asset := SearchRecord(env, items[i]);
      if asset.Some? && asset.value.name == Str(filename) {
        return asset;
      }
      i := i + 1;
    }
    return None;
  }

  // ---------------------------------------------------------------------
  // What the resolvers return, as functions of the state they start in
  // ---------------------------------------------------------------------

  /** The outcome of the filename search request. */
  function SearchOutcome(env: Env, decode: string -> Value, resp: Response, filename: string): Option<Asset> {
    if resp.Transport? || resp.code != 200 || EmptyStr(resp.body) then None
    else
      var data := decode(resp.body);
      if Empty(data) || Get(data, "results").None? then None
      else TwoPassMatch(env, Items(Get(data, "results").value), filename)
  }

  /** Whether `find_asset_by_filename` reaches the remote search. */
  predicate SearchesRemotely(env: Env, net: Net, store: map<string, Entry<Asset>>, now: int, filename: string) {
    !EmptyStr(filename) && Lookup(store, FilenameKey(net, filename), now).None?
    && env.config.HasDomain() && env.config.HasToken()
  }

  /** `find_asset_by_filename($filename)` */
  function ByFilename(env: Env, net: Net, store: map<string, Entry<Asset>>, now: int, filename: string): (r: Option<Asset>)
    ensures EmptyStr(filename) ==> r.None?
    ensures r.Some? && !SearchesRemotely(env, net, store, now, filename) ==> r == Lookup(store, FilenameKey(net, filename), now)
  {
    if EmptyStr(filename) then None
    else if Lookup(store, FilenameKey(net, filename), now).Some? then Lookup(store, FilenameKey(net, filename), now)
    else if !env.config.HasDomain() || !env.config.HasToken() then None
    else SearchOutcome(env, net.decode, net.remote(FilenameSearchUrl(env.config, net, filename)), filename)
  }

  /** Whether `get_canto_asset_data` reaches the remote probes. */
  predicate ProbesRemotely(env: Env, store: map<string, Entry<Asset>>, now: int, assetId: string) {
    !EmptyStr(assetId) && Lookup(store, AssetKey(assetId), now).None?
    && env.config.HasDomain() && env.config.HasToken()
  }

  /** `get_canto_asset_data($asset_id)` */
  function ById(env: Env, net: Net, store: map<string, Entry<Asset>>, now: int, assetId: string): (r: Option<Asset>)
    ensures EmptyStr(assetId) ==> r.None?
    ensures r.Some? && !ProbesRemotely(env, store, now, assetId) ==> r == Lookup(store, AssetKey(assetId), now)
    ensures r.Some? && ProbesRemotely(env, store, now, assetId) ==> r.value.id == Str(assetId)
  {
    if EmptyStr(assetId) then None
    else if Lookup(store, AssetKey(assetId), now).Some? then Lookup(store, AssetKey(assetId), now)
    else if !env.config.HasDomain() || !env.config.HasToken() then None
    else
      match FirstHit(AssetHits(env.config, net, assetId))
      case Some(data) => Some(ByIdRecord(env, assetId, data))
      case None => None
  }

  /** The URLs `find_asset_by_filename` requests. */
  function ByFilenameRequests(env: Env, net: Net, store: map<string, Entry<Asset>>, now: int, filename: string): seq<string> {
    if SearchesRemotely(env, net, store, now, filename) then [FilenameSearchUrl(env.config, net, filename)] else []
  }

  /** The transients after `find_asset_by_filename`: written only after a
      remote search that found a match. */
  function ByFilenameStore(env: Env, net: Net, store: map<string, Entry<Asset>>, now: int, filename: string): map<string, Entry<Asset>> {
    var r := ByFilename(env, net, store, now, filename);
    if SearchesRemotely(env, net, store, now, filename) && r.Some? then Put(store, FilenameKey(net, filename), r.value, now) else store
  }

  /** The URLs `get_canto_asset_data` requests: the probes up to and
      including the first accepted one. */
  function ByIdRequests(env: Env, net: Net, store: map<string, Entry<Asset>>, now: int, assetId: string): seq<string> {
    if ProbesRemotely(env, store, now, assetId) then AssetUrls(env.config, assetId)[..Probed(AssetHits(env.config, net, assetId))] else []
  }

  /** The transients after `get_canto_asset_data`. */
  function ByIdStore(env: Env, net: Net, store: map<string, Entry<Asset>>, now: int, assetId: string): map<string, Entry<Asset>> {
    var r := ById(env, net, store, now, assetId);
    if ProbesRemotely(env, store, now, assetId) && r.Some? then Put(store, AssetKey(assetId), r.value, now) else store
  }

  /** The filename lookup: false for an empty filename; a live cache entry
      is returned as it is; without domain or token nothing is found; a
      remote answer is the two-pass match over the search results. */
  lemma ByFilenameOutcomes(env: Env, net: Net, store: map<string, Entry<Asset>>, now: int, filename: string)
    ensures EmptyStr(filename) ==> ByFilename(env, net, store, now, filename).None?
    ensures !EmptyStr(filename) && Lookup(store, FilenameKey(net, filename), now).Some? ==>
              ByFilename(env, net, store, now, filename) == Lookup(store, FilenameKey(net, filename), now)
    ensures !EmptyStr(filename) && Lookup(store, FilenameKey(net, filename), now).None?
            && (!env.config.HasDomain() || !env.config.HasToken()) ==>
              ByFilename(env, net, store, now, filename).None?
    ensures SearchesRemotely(env, net, store, now, filename) && ByFilename(env, net, store, now, filename).Some? ==>
              var r := ByFilename(env, net, store, now, filename).value;
              r.filename == Some(Str(filename)) || r.name == Str(filename)
    ensures SearchesRemotely(env, net, store, now, filename) ==>
              ByFilename(env, net, store, now, filename)
              == SearchOutcome(env, net.decode, net.remote(FilenameSearchUrl(env.config, net, filename)), filename)
  {
    if SearchesRemotely(env, net, store, now, filename) {
      var resp := net.remote(FilenameSearchUrl(env.config, net, filename));
      if SearchOutcome(env, net.decode, resp, filename).Some? {
        var items := Items(Get(net.decode(resp.body), "results").value);
        TwoPassMatchSpec(env, items, filename);
      }
    }
  }

  /** The id lookup probes image, video, document in that order and takes
      the first accepted payload; the record carries the requested id and
      always a non-empty thumbnail. */
  lemma ByIdOutcomes(env: Env, net: Net, store: map<string, Entry<Asset>>, now: int, assetId: string)
    ensures ProbesRemotely(env, store, now, assetId) ==>
              var hits := AssetHits(env.config, net, assetId);
              var r := ById(env, net, store, now, assetId);
              && (r.Some? <==> exists k | 0 <= k < |hits| :: hits[k].Some?)
              && (hits[0].Some? ==> r == Some(ByIdRecord(env, assetId, hits[0].value)))
              && (hits[0].None? && hits[1].Some? ==> r == Some(ByIdRecord(env, assetId, hits[1].value)))
              && (hits[0].None? && hits[1].None? && hits[2].Some? ==>
                    r == Some(ByIdRecord(env, assetId, hits[2].value)))
              && (r.Some? ==> r.value.id == Str(assetId) && !Empty(r.value.thumbnail))
  {
    if ProbesRemotely(env, store, now, assetId) {
      var hits := AssetHits(env.config, net, assetId);
      FirstHitIsEarliest(hits);
      if hits[0].Some? {
        FirstHitAt(hits, 0);
      } else if hits[1].Some? {
        FirstHitAt(hits, 1);
      } else if hits[2].Some? {
        FirstHitAt(hits, 2);
      }
      match FirstHit(hits)
      case Some(data) => ThumbnailAlwaysSet(env, data, assetId);
      case None =>
    }
  }

  /** Cache discipline of the filename lookup: a live entry is answered
      with no request and no write; a miss writes only on a match; and for
      the hour after a successful search the same filename is answered from
      the cache, with the same record and no request. */
  lemma ByFilenameCaching(env: Env, net: Net, store: map<string, Entry<Asset>>, now: int, later: int, filename: string)
    requires now <= later <= now + HourInSeconds
    ensures !EmptyStr(filename) && Lookup(store, FilenameKey(net, filename), now).Some? ==>
              ByFilenameRequests(env, net, store, now, filename) == [] && ByFilenameStore(env, net, store, now, filename) == store
    ensures ByFilename(env, net, store, now, filename).None? ==> ByFilenameStore(env, net, store, now, filename) == store
    ensures SearchesRemotely(env, net, store, now, filename) && ByFilename(env, net, store, now, filename).Some? ==>
              var store' := ByFilenameStore(env, net, store, now, filename);
              && ByFilename(env, net, store', later, filename) == ByFilename(env, net, store, now, filename)
              && ByFilenameRequests(env, net, store', later, filename) == []
  {
  }

  /** The same discipline for the id lookup, under `canto_asset_<id>`. */
  lemma ByIdCaching(env: Env, net: Net, store: map<string, Entry<Asset>>, now: int, later: int, assetId: string)
    requires now <= later <= now + HourInSeconds
    ensures !EmptyStr(assetId) && Lookup(store, AssetKey(assetId), now).Some? ==>
              ByIdRequests(env, net, store, now, assetId) == [] && ByIdStore(env, net, store, now, assetId) == store
    ensures ById(env, net, store, now, assetId).None? ==> ByIdStore(env, net, store, now, assetId) == store
    ensures ProbesRemotely(env, store, now, assetId) && ById(env, net, store, now, assetId).Some? ==>
              var store' := ByIdStore(env, net, store, now, assetId);
              && ById(env, net, store', later, assetId) == ById(env, net, store, now, assetId)
              && ByIdRequests(env, net, store', later, assetId) == []
  {
  }

  // ---------------------------------------------------------------------
  // Return format and validation
  // ---------------------------------------------------------------------

  /** What `format_value` hands to the template: false, a scalar (the id or
      the URL) or the whole asset array. */
  datatype Formatted = NoAsset | Scalar(v: Value) | Whole(asset: Asset)

  /** `prepare_return_value($asset_data, $field)` */
  function PrepareReturnValue(asset: Option<Asset>, returnFormat: string): (r: Formatted)
    ensures asset.None? ==> r == NoAsset
    ensures r.Whole? ==> asset == Some(r.asset) && returnFormat != "id" && returnFormat != "url"
    ensures asset.Some? && returnFormat == "id" ==> r == Scalar(asset.value.id)
    ensures r.Scalar? && returnFormat == "url" ==> r.v == asset.value.url
    ensures asset.Some? && returnFormat != "id" && returnFormat != "url" ==> r == Whole(asset.value)
    ensures asset.Some? && returnFormat == "url" && asset.value.url != Null ==> r == Scalar(asset.value.url)
    ensures asset.Some? && returnFormat == "url" && asset.value.url == Null ==> r == NoAsset
  {
    match asset
    case None => NoAsset
    case Some(a) =>
      if returnFormat == "id" then Scalar(a.id)
      else if returnFormat == "url" then (if a.url != Null then Scalar(a.url) else NoAsset)
      else Whole(a)
  }

  /** For every record the normalisers build: the id format gives the id,
      the url format gives the `url` field (never false, possibly ""), and
      any other format gives the record itself. */
  lemma ReturnFormats(env: Env, data: Value, assetId: string, returnFormat: string)
    ensures var b := ByIdRecord(env, assetId, data);
            && PrepareReturnValue(Some(b), "id") == Scalar(Str(assetId))
            && PrepareReturnValue(Some(b), "url") == Scalar(UrlFieldOr(data, "preview"))
            && (returnFormat != "id" && returnFormat != "url" ==>
                  PrepareReturnValue(Some(b), returnFormat) == Whole(b))
    ensures SearchRecord(env, data).Some? ==>
              var s := SearchRecord(env, data).value;
              PrepareReturnValue(Some(s), "url") == Scalar(s.url)
              && PrepareReturnValue(Some(s), "id") == Scalar(data.fields["id"])
              && (returnFormat != "id" && returnFormat != "url" ==> PrepareReturnValue(Some(s), returnFormat) == Whole(s))
    ensures PrepareReturnValue(None, returnFormat) == NoAsset
  {
    UrlKeyAlwaysSet(env, data, assetId);
  }

  /** `validate_value`: an empty value in a required field becomes the error
      message; otherwise the incoming status is passed through. */
  function ValidateValue(valid: Value, value: Value, required: Value): (r: Value)
    ensures r == valid || r == Str("This field is required.")
    ensures Truthy(required) && Empty(value) ==> r == Str("This field is required.")
    ensures !(Truthy(required) && Empty(value)) ==> r == valid
  {
    if Truthy(required) && Empty(value) then Str("This field is required.") else valid
  }

  /** `parse_legacy_value`: a string starting with `{` that decodes to an
      array with a `filename` yields that filename; any other string starting
      with `{` is returned as it is; anything else is cast to a string. */
  function ParseLegacyValue(decode: string -> Value, value: Value): (r: Value)
    ensures !(value.Str? && |value.s| > 0 && value.s[0] == '{') ==> r == Str(StrOf(value))
    ensures (value.Str? && |value.s| > 0 && value.s[0] == '{' && IsArray(decode(value.s))
             && Get(decode(value.s), "filename").Some?) ==> r == Get(decode(value.s), "filename").value
    ensures (value.Str? && |value.s| > 0 && value.s[0] == '{'
             && !(IsArray(decode(value.s)) && Get(decode(value.s), "filename").Some?)) ==> r == Str(value.s)
  {
    if value.Str? && |value.s| > 0 && value.s[0] == '{' then
      var decoded := decode(value.s);
      if IsArray(decoded) && Get(decoded, "filename").Some? then Get(decoded, "filename").value
      else Str(value.s)
    else Str(StrOf(value))
  }

  // ---------------------------------------------------------------------
  // The field class
  // ---------------------------------------------------------------------

  class FieldCanto {
    const site: Site

    constructor (site: Site)
      ensures this.site == site
    {
      this.site := site;
    }

    /** `find_asset_by_filename($filename)` */
    method FindAssetByFilename(filename: string) returns (r: Option<Asset>)
      modifies site
      ensures r == old(ByFilename(site.env, site.net, site.transients, site.now, filename))
      ensures site.now == old(site.now)
      ensures site.requests == old(site.requests) + old(ByFilenameRequests(site.env, site.net, site.transients, site.now, filename))
      ensures site.transients == old(ByFilenameStore(site.env, site.net, site.transients, site.now, filename))
    {
      if EmptyStr(filename) {
        return None;
      }
      var key := FilenameKey(site.net, filename);
      var cached := site.GetTransient(key);
      if cached.Some? {
        return cached;
      }
      var config := site.env.config;
      if !config.HasDomain() || !config.HasToken() {
        return None;
      }
      var resp := site.RemoteGet(FilenameSearchUrl(config, site.net, filename));
      if resp.Transport? {
        return None;
      }
      if resp.code != 200 || EmptyStr(resp.body) {
        return None;
      }
      var data := site.net.decode(resp.body);
      if Empty(data) || Get(data, "results").None? {
        return None;
      }
      r := MatchResults(site.env, Items(Get(data, "results").value), filename);
      if r.Some? {
        site.SetTransient(key, r.value);
      }
    }

    /** `get_canto_asset_data($asset_id)` */
    method GetCantoAssetData(assetId: string) returns (r: Option<Asset>)
      modifies site
      ensures r == old(ById(site.env, site.net, site.transients, site.now, assetId))
      ensures site.now == old(site.now)
      ensures site.requests == old(site.requests) + old(ByIdRequests(site.env, site.net, site.transients, site.now, assetId))
      ensures site.transients == old(ByIdStore(site.env, site.net, site.transients, site.now, assetId))
    {
      if EmptyStr(assetId) {
        return None;
      }
      var key := AssetKey(assetId);
      var cached := site.GetTransient(key);
      if cached.Some? {
        return cached;
      }
      var config := site.env.config;
      if !config.HasDomain() || !config.HasToken() {
        return None;
      }
      var urls := AssetUrls(config, assetId);
      ghost var hits := AssetHits(config, site.net, assetId);
      var data: Option<Value> := None;
      var i := 0;
      while i < |urls|
        invariant 0 <= i <= |urls|
        invariant forall j | 0 <= j < i :: hits[j].None?
        invariant site.requests == old(site.requests) + urls[..i]
        invariant site.transients == old(site.transients) && site.now == old(site.now)
      {
        var resp := site.RemoteGet(urls[i]);
        assert hits[i] == AcceptPayload(site.net.decode, resp);
        assert urls[..i + 1] == urls[..i] + [urls[i]];
        if !resp.Transport? {
          if resp.code == 200 && !EmptyStr(resp.body) {
            var json := site.net.decode(resp.body);
            if Truthy(json) && Get(json, "error").None? {
              data := Some(json);
              FirstHitAt(hits, i);
              i := i + 1;
              break;
            }
          }
        }
        i := i + 1;
      }
      if data.None? {
        NoHit(hits);
        return None;
      }
      r := Some(ByIdRecord(site.env, assetId, data.value));
      site.SetTransient(key, r.value);
    }

    /** `format_value($value, $post_id, $field)` */
    method FormatValue(value: Value, returnFormat: string) returns (r: Formatted)
      modifies site
      ensures Empty(value) ==> r == NoAsset && unchanged(site)
      ensures !Empty(value) ==>
                && r == PrepareReturnValue(old(ByFilename(site.env, site.net, site.transients, site.now, StrOf(value))), returnFormat)
                && site.now == old(site.now)
                && site.requests == old(site.requests) + old(ByFilenameRequests(site.env, site.net, site.transients, site.now, StrOf(value)))
                && site.transients == old(ByFilenameStore(site.env, site.net, site.transients, site.now, StrOf(value)))
    {
      if Empty(value) {
        return NoAsset;
      }
      var filename := StrOf(value);
      var asset := FindAssetByFilename(filename);
      if asset.None? {
        return NoAsset;
      }
      r := PrepareReturnValue(asset, returnFormat);
    }
  }
}
