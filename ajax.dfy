/**
 * The AJAX handler `ACF_Canto_AJAX_Handler`: the asset search used by the
 * picker (with the currently selected asset pulled in when the search does
 * not return it), the single-asset lookup, the folder tree with its fallback
 * for a missing endpoint, and the album listing that tries three endpoints.
 * Each endpoint answers with a success payload or an error message.
 */
module Ajax {
  import opened Php
  import opened Wp
  import opened Asset
  import opened Store
  import opened Field

  /** The `fileType` filter of the search and album requests. */
  const FileTypes: string :=
    "GIF|JPG|PNG|SVG|WEBP|" + "DOC|KEY|ODT|PDF|PPT|XLS|" + "MPEG|M4A|OGG|WAV|" + "AVI|MP4|MOV|OGG|VTT|WMV|3GP"

  /** What `wp_send_json_success` / `wp_send_json_error` send back. */
  datatype Reply =
    | Assets(assets: seq<Asset>)
    | Single(asset: Asset)
    | Data(data: Value)
    | Error(message: string)

  /** The POST fields the handlers read, after `sanitize_text_field`; a
      missing field reads as "". */
  datatype Request = Request(query: string, selectedId: string, assetId: string, albumId: string)

  /** The outcome of checking one API response: an error message, or the
      decoded payload. */
  datatype Fetch = ApiError(message: string) | Payload(data: Value)

  /** `substr($s, 0, $n)` */
  function Prefix(s: string, n: nat): (p: string)
    ensures |p| <= n && p <= s
    ensures |s| <= n ==> p == s
  {
    if |s| <= n then s else s[..n]
  }

  // ---------------------------------------------------------------------
  // Request URLs
  // ---------------------------------------------------------------------

  function SearchUrl(config: Config, net: Net, query: string): string {
    if !EmptyStr(query) then
      config.Origin() + "/api/v1/search?keyword=" + net.urlencode(query) + "&fileType="
      + net.urlencode(FileTypes) + "&operator=and&limit=50&start=0"
    else
      config.Origin() + "/api/v1/search?keyword=&fileType=" + net.urlencode(FileTypes) + "&limit=50&start=0"
  }

  function TreeUrl(config: Config, albumId: string): string {
    if !EmptyStr(albumId) then
      config.Origin() + "/api/v1/tree/" + albumId + "?sortBy=name&sortDirection=ascending"
    else
      config.Origin() + "/api/v1/tree?sortBy=name&sortDirection=ascending&layer=1"
  }

  /** The album, folder and search-in-album endpoints, in the order tried. */
  function AlbumUrls(config: Config, net: Net, albumId: string): (urls: seq<string>)
    ensures |urls| == 3
  {
    [ config.Origin() + "/api/v1/album/" + albumId + "?limit=50&start=0&fileType=" + net.urlencode(FileTypes),
      config.Origin() + "/api/v1/folder/" + albumId + "?limit=50&start=0&fileType=" + net.urlencode(FileTypes),
      config.Origin() + "/api/v1/search?albumId=" + net.urlencode(albumId) + "&fileType="
      + net.urlencode(FileTypes) + "&limit=50&start=0" ]
  }

  // ---------------------------------------------------------------------
  // Normalising a result list
  // ---------------------------------------------------------------------

  /** The asset one result contributes: its record, or nothing when it is
      rejected. */
  function Kept(env: Env, item: Value): seq<Asset> {
    match AjaxRecord(env, item)
    case Some(a) => [a]
    case None => []
  }

  /** The `foreach` that normalises every result and keeps the accepted
      ones, in order. */
  function FormatAll(env: Env, items: seq<Value>): seq<Asset> {
    if items == [] then [] else FormatAll(env, items[..|items| - 1]) + Kept(env, items[|items| - 1])
  }

  /** The results list of a payload, when it holds an array under
      `results`. */
  function ResultsOf(data: Value): seq<Value> {
    match Get(data, "results")
    case Some(results) => if IsArray(results) then Items(results) else []
    case None => []
  }

  /** Nothing is added: every kept asset is the record of one result, and
      there are at most as many assets as results. */
  lemma {:induction false} FormatAllSound(env: Env, items: seq<Value>)
    ensures |FormatAll(env, items)| <= |items|
    ensures forall a | a in FormatAll(env, items) :: exists k | 0 <= k < |items| :: AjaxRecord(env, items[k]) == Some(a)
  {
    if items != [] {
      var init := items[..|items| - 1];
      var last := items[|items| - 1];
      FormatAllSound(env, init);
      assert FormatAll(env, items) == FormatAll(env, init) + Kept(env, last);
      forall a | a in FormatAll(env, items)
        ensures exists k | 0 <= k < |items| :: AjaxRecord(env, items[k]) == Some(a)
      {
        if a in FormatAll(env, init) {
          var k :| 0 <= k < |init| && AjaxRecord(env, init[k]) == Some(a);
          assert items[k] == init[k];
        } else {
          assert a in Kept(env, last);
          assert AjaxRecord(env, items[|items| - 1]) == Some(a);
        }
      }
    }
  }

  /** Every result that normalises is kept. */
  lemma {:induction false} FormatAllComplete(env: Env, items: seq<Value>)
    ensures forall k | 0 <= k < |items| :: AjaxRecord(env, items[k]).Some? ==> AjaxRecord(env, items[k]).value in FormatAll(env, items)
  {
    if items != [] {
      var init := items[..|items| - 1];
      var last := items[|items| - 1];
      FormatAllComplete(env, init);
      assert FormatAll(env, items) == FormatAll(env, init) + Kept(env, last);
      forall k | 0 <= k < |items| && AjaxRecord(env, items[k]).Some?
        ensures AjaxRecord(env, items[k]).value in FormatAll(env, items)
      {
        if k < |init| {
          assert items[k] == init[k];
        } else {
          assert items[k] == last;
        }
      }
    }
  }

  /** When every result has an id, none is dropped. */
  lemma {:induction false} FormatAllKeepsAll(env: Env, items: seq<Value>)
    requires forall k | 0 <= k < |items| :: AjaxRecord(env, items[k]).Some?
    ensures |FormatAll(env, items)| == |items|
  {
    if items != [] {
      var init := items[..|items| - 1];
      var last := items[|items| - 1];
      forall k | 0 <= k < |init| ensures AjaxRecord(env, init[k]).Some? {
        assert init[k] == items[k];
      }
      FormatAllKeepsAll(env, init);
      assert AjaxRecord(env, last).Some?;
      assert FormatAll(env, items) == FormatAll(env, init) + Kept(env, last);
    }
  }

  /** Normalising concatenated result lists concatenates the outcomes. */
  lemma {:induction false} FormatAllAppend(env: Env, xs: seq<Value>, ys: seq<Value>)
    ensures FormatAll(env, xs + ys) == FormatAll(env, xs) + FormatAll(env, ys)
    decreases |ys|
  {
    if ys == [] {
      assert xs + ys == xs;
    } else {
      var ys' := ys[..|ys| - 1];
      assert (xs + ys)[..|xs + ys| - 1] == xs + ys';
      FormatAllAppend(env, xs, ys');
    }
  }

  /** The normalising `foreach` over the results. */
  method FormatResults(env: Env, items: seq<Value>) returns (assets: seq<Asset>)
    ensures assets == FormatAll(env, items)
  {
    assets := [];
    var i := 0;
    while i < |items|
      invariant 0 <= i <= |items|
      invariant assets == FormatAll(env, items[..i])
    {
      assert items[..i + 1][..i] == items[..i];
      var asset := AjaxRecord(env, items[i]);
      if asset.Some? {
        assets := assets + [asset.value];
      }
      i := i + 1;
    }
    assert items[..i] == items;
  }

  // ---------------------------------------------------------------------
  // The selected asset
  // ---------------------------------------------------------------------

  /** `asset_in_results`: some asset's id is identical to the given id. */
  predicate InResults(assetId: string, assets: seq<Asset>) {
    exists k | 0 <= k < |assets| :: assets[k].id == Str(assetId)
  }

  method AssetInResults(assetId: string, assets: seq<Asset>) returns (found: bool)
    ensures found <==> InResults(assetId, assets)
  {
    var i := 0;
    while i < |assets|
      invariant 0 <= i <= |assets|
      invariant forall k | 0 <= k < i :: assets[k].id != Str(assetId)
    {
      if assets[i].id != Null && assets[i].id == Str(assetId) {
        return true;
      }
      i := i + 1;
    }
    return false;
  }

  /** The search must fetch the selected asset separately. */
  predicate NeedsSelected(selectedId: string, base: seq<Asset>) {
    !EmptyStr(selectedId) && !InResults(selectedId, base)
  }

  /** `array_unshift` of the separately fetched asset, when there is one. */
  function WithSelected(base: seq<Asset>, fetched: Option<Asset>): seq<Asset> {
    match fetched
    case Some(a) => [a] + base
    case None => base
  }

  /** The result list is the search results, with at most one asset put in
      front of them; a fetched asset is put in front only when the selected
      id is missing from the results, and then the selected id is present
      afterwards exactly when the fetched asset carries it. */
  lemma SelectedAssetPlacement(selectedId: string, base: seq<Asset>, fetched: Option<Asset>)
    requires NeedsSelected(selectedId, base)
    ensures var r := WithSelected(base, fetched);
            && (r == base || (|r| == |base| + 1 && r[1..] == base && Some(r[0]) == fetched))
            && (InResults(selectedId, r) <==> fetched.Some? && fetched.value.id == Str(selectedId))
  {
    var r := WithSelected(base, fetched);
    if fetched.Some? {
      assert r[1..] == base;
      forall k | 0 < k < |r| ensures r[k].id != Str(selectedId) {
        assert r[k] == base[k - 1];
      }
      if fetched.value.id == Str(selectedId) {
        assert r[0].id == Str(selectedId);
      }
    }
  }

  // ---------------------------------------------------------------------
  // get_single_asset
  // ---------------------------------------------------------------------

  /** One probe of `get_single_asset`: an accepted payload counts only when
      it normalises; otherwise the next endpoint is tried. */
  function SingleProbe(env: Env, decode: string -> Value, resp: Response): Option<Asset> {
    match AcceptPayload(decode, resp)
    case Some(data) => AjaxRecord(env, data)
    case None => None
  }

  function SingleHits(env: Env, net: Net, assetId: string): (hits: seq<Option<Asset>>)
    ensures |hits| == |AssetEndpoints|
  {
    var urls := AssetUrls(env.config, assetId);
    seq(|urls|, i requires 0 <= i < |urls| => SingleProbe(env, net.decode, net.remote(urls[i])))
  }

  /** Whether `get_single_asset` reaches the remote probes. */
  predicate SingleFetches(env: Env, store: map<string, Entry<Asset>>, now: int, assetId: string) {
    env.config.HasToken() && env.config.HasDomain() && Lookup(store, AssetKey(assetId), now).None?
  }

  /** `get_single_asset($asset_id)`: configuration first, then the cache
      shared with the field class, then the probes. */
  function SingleAsset(env: Env, net: Net, store: map<string, Entry<Asset>>, now: int, assetId: string): (r: Option<Asset>)
    ensures !env.config.HasToken() || !env.config.HasDomain() ==> r.None?
    ensures r.Some? && !SingleFetches(env, store, now, assetId) ==> r == Lookup(store, AssetKey(assetId), now)
  {
    if !env.config.HasToken() || !env.config.HasDomain() then None
    else if Lookup(store, AssetKey(assetId), now).Some? then Lookup(store, AssetKey(assetId), now)
    else FirstHit(SingleHits(env, net, assetId))
  }

  /** The URLs `get_single_asset` requests. */
  function SingleRequests(env: Env, net: Net, store: map<string, Entry<Asset>>, now: int, assetId: string): seq<string> {
    if SingleFetches(env, store, now, assetId)
    then AssetUrls(env.config, assetId)[..Probed(SingleHits(env, net, assetId))]
    else []
  }

  /** The transients after `get_single_asset`. */
  function SingleStore(env: Env, net: Net, store: map<string, Entry<Asset>>, now: int, assetId: string): map<string, Entry<Asset>> {
    var r := SingleAsset(env, net, store, now, assetId);
    if SingleFetches(env, store, now, assetId) && r.Some? then Put(store, AssetKey(assetId), r.value, now) else store
  }

  /** A fetched asset comes from the earliest endpoint whose payload is
      accepted and carries an id; an accepted payload without an id does not
      end the probe. */
  lemma SingleAssetOutcomes(env: Env, net: Net, store: map<string, Entry<Asset>>, now: int, assetId: string)
    ensures SingleFetches(env, store, now, assetId) ==>
              var hits := SingleHits(env, net, assetId);
              var r := SingleAsset(env, net, store, now, assetId);
              && (forall k | 0 <= k < |hits| :: hits[k].Some? <==>
                    var p := AcceptPayload(net.decode, net.remote(AssetUrls(env.config, assetId)[k]));
                    p.Some? && AjaxRecord(env, p.value).Some?)
              && (r.Some? <==> exists k | 0 <= k < |hits| :: hits[k].Some?)
              && (r.Some? ==> exists k | 0 <= k < |hits| ::
                    hits[k] == r && forall j | 0 <= j < k :: hits[j].None?)
              && (r.Some? ==> !Empty(r.value.thumbnail))
  {
    if SingleFetches(env, store, now, assetId) {
      var hits := SingleHits(env, net, assetId);
      FirstHitIsEarliest(hits);
      var r := SingleAsset(env, net, store, now, assetId);
      if r.Some? {
        var k := Probed(hits) - 1;
        var p := AcceptPayload(net.decode, net.remote(AssetUrls(env.config, assetId)[k]));
        ThumbnailAlwaysSet(env, p.value, assetId);
      }
    }
  }

  /** The two id lookups order their checks differently: the field class
      answers from a live cache entry even when the token or domain has
      since been removed; the AJAX handler answers nothing then. */
  lemma CacheAndConfigurationOrder(env: Env, net: Net, store: map<string, Entry<Asset>>, now: int, assetId: string)
    requires !EmptyStr(assetId) && Lookup(store, AssetKey(assetId), now).Some?
    ensures ById(env, net, store, now, assetId) == Lookup(store, AssetKey(assetId), now)
    ensures SingleAsset(env, net, store, now, assetId)
            == if env.config.HasToken() && env.config.HasDomain() then Lookup(store, AssetKey(assetId), now) else None
  {
  }

  /** The AJAX handler and the field class share the `canto_asset_<id>`
      transient: for the hour after the handler has cached an asset, the
      field's id lookup answers with the handler's record, which has no
      `filename` key, without a request. */
  lemma SharedAssetCache(env: Env, net: Net, store: map<string, Entry<Asset>>, now: int, later: int, assetId: string)
    requires now <= later <= now + HourInSeconds
    requires !EmptyStr(assetId) && SingleFetches(env, store, now, assetId)
    requires SingleAsset(env, net, store, now, assetId).Some?
    ensures var store' := SingleStore(env, net, store, now, assetId);
            && ById(env, net, store', later, assetId) == SingleAsset(env, net, store, now, assetId)
            && ById(env, net, store', later, assetId).value.filename.None?
            && ByIdRequests(env, net, store', later, assetId) == []
  {
    var hits := SingleHits(env, net, assetId);
    FirstHitIsEarliest(hits);
    var k := Probed(hits) - 1;
    var p := AcceptPayload(net.decode, net.remote(AssetUrls(env.config, assetId)[k]));
    assert hits[k] == SingleProbe(env, net.decode, net.remote(AssetUrls(env.config, assetId)[k]));
    assert hits[k] == AjaxRecord(env, p.value);
  }

  // ---------------------------------------------------------------------
  // Checking a response
  // ---------------------------------------------------------------------

  /** The response checks of the search: transport error, empty body, status
      other than 200 (with the first 200 bytes of the body), undecodable or
      empty payload, and an `error` key, in that order. */
  function CheckSearchResponse(decode: string -> Value, resp: Response): Fetch {
    if resp.Transport? then ApiError("API request failed: " + resp.message)
    else if EmptyStr(resp.body) then ApiError("No response from Canto API")
    else if resp.code != 200 then
      ApiError("API request failed with HTTP code: " + IntToString(resp.code) + ". Response: " + Prefix(resp.body, 200))
    else
      var data := decode(resp.body);
      if Empty(data) then ApiError("Invalid JSON response from Canto API")
      else if Get(data, "error").Some? then ApiError("Error from Canto API: " + StrOf(Get(data, "error").value))
      else Payload(data)
  }

  /** The search's response checks accept exactly what the endpoint probes
      accept; an empty body is reported as missing whatever the status. */
  lemma SearchChecksAgreeWithProbes(decode: string -> Value, resp: Response)
    ensures CheckSearchResponse(decode, resp).Payload? <==> AcceptPayload(decode, resp).Some?
    ensures CheckSearchResponse(decode, resp).Payload? ==>
              CheckSearchResponse(decode, resp).data == AcceptPayload(decode, resp).value
    ensures resp.Http? && EmptyStr(resp.body) ==> CheckSearchResponse(decode, resp) == ApiError("No response from Canto API")
  {
  }

  /** The folder tree that stands in for a missing tree endpoint. */
  const FallbackTree: Value := Dict(map[
    "results" := List([Dict(map["id" := Str("all"), "name" := Str("All Assets"), "type" := Str("folder"), "children" := List([])])]),
    "found" := Int(1),
    "limit" := Int(1),
    "start" := Int(0)])

  /** The response checks of `get_tree`: as for the search, except that a
      404 with a body yields the fallback tree and another non-200 status is
      reported without the body. */
  function CheckTreeResponse(decode: string -> Value, resp: Response): Fetch {
    if resp.Transport? then ApiError("API request failed: " + resp.message)
    else if EmptyStr(resp.body) then ApiError("No response from Canto API")
    else if resp.code == 404 then Payload(FallbackTree)
    else if resp.code != 200 then ApiError("API request failed with HTTP code: " + IntToString(resp.code))
    else
      var data := decode(resp.body);
      if Empty(data) then ApiError("Invalid JSON response from Canto API")
      else if Get(data, "error").Some? then ApiError("Error from Canto API: " + StrOf(Get(data, "error").value))
      else Payload(data)
  }

  /** The tree check differs from the search check only on non-200
      statuses: a 404 with a body becomes the fallback tree, whatever the
      body holds. */
  lemma TreeChecksAgreeWithSearch(decode: string -> Value, resp: Response)
    ensures resp.Transport? || EmptyStr(resp.body) || resp.code == 200 ==>
              CheckTreeResponse(decode, resp) == CheckSearchResponse(decode, resp)
    ensures resp.Http? && !EmptyStr(resp.body) && resp.code == 404 ==> CheckTreeResponse(decode, resp) == Payload(FallbackTree)
    ensures resp.Http? && !EmptyStr(resp.body) && resp.code != 404 && resp.code != 200 ==>
              CheckTreeResponse(decode, resp).ApiError?
              && CheckSearchResponse(decode, resp).ApiError?
              && CheckSearchResponse(decode, resp).message
                 == CheckTreeResponse(decode, resp).message + ". Response: " + Prefix(resp.body, 200)
  {
  }

  // ---------------------------------------------------------------------
  // The replies
  // ---------------------------------------------------------------------

  /** The configuration checks of `search_assets`. */
  function SearchGate(config: Config, cantoLoaded: bool): Option<string> {
    if !cantoLoaded then Some("Canto plugin not found")
    else if !config.HasToken() then Some("Canto API token not configured")
    else if !config.HasDomain() then Some("Canto domain not configured")
    else None
  }

  /** The normalised search results, when the response passes its checks. */
  function SearchBase(env: Env, net: Net, query: string): Option<seq<Asset>> {
    match CheckSearchResponse(net.decode, net.remote(SearchUrl(env.config, net, query)))
    case Payload(data) => Some(FormatAll(env, ResultsOf(data)))
    case ApiError(_) => None
  }

  /** `search_assets()` */
  function SearchReply(env: Env, net: Net, store: map<string, Entry<Asset>>, now: int, cantoLoaded: bool, req: Request): (r: Reply)
    ensures r.Assets? || r.Error?
    ensures !cantoLoaded ==> r == Error("Canto plugin not found")
    ensures cantoLoaded && !env.config.HasToken() ==> r == Error("Canto API token not configured")
  {
    match SearchGate(env.config, cantoLoaded)
    case Some(message) => Error(message)
    case None =>
      match CheckSearchResponse(net.decode, net.remote(SearchUrl(env.config, net, req.query)))
      case ApiError(message) => Error(message)
      case Payload(data) =>
        var base := FormatAll(env, ResultsOf(data));
        if NeedsSelected(req.selectedId, base)
        then Assets(WithSelected(base, SingleAsset(env, net, store, now, req.selectedId)))
        else Assets(base)
  }

  /** Whether the search goes on to fetch the selected asset. */
  predicate SearchFetchesSelected(env: Env, net: Net, cantoLoaded: bool, req: Request) {
    SearchGate(env.config, cantoLoaded).None? && SearchBase(env, net, req.query).Some?
    && NeedsSelected(req.selectedId, SearchBase(env, net, req.query).value)
  }

  function SearchRequests(env: Env, net: Net, store: map<string, Entry<Asset>>, now: int, cantoLoaded: bool, req: Request): seq<string> {
    if SearchGate(env.config, cantoLoaded).Some? then []
    else [SearchUrl(env.config, net, req.query)]
         + (if SearchFetchesSelected(env, net, cantoLoaded, req) then SingleRequests(env, net, store, now, req.selectedId) else [])
  }

  function SearchStore(env: Env, net: Net, store: map<string, Entry<Asset>>, now: int, cantoLoaded: bool, req: Request): map<string, Entry<Asset>> {
    if SearchFetchesSelected(env, net, cantoLoaded, req) then SingleStore(env, net, store, now, req.selectedId) else store
  }

  /** A search that passes its checks always succeeds, with the normalised
      results and, when the selected asset is missing from them and its fetch
      succeeds, that asset in front; a failed fetch leaves the results as they
      are. A failing check is reported as an error. */
  lemma SearchReplyOutcomes(env: Env, net: Net, store: map<string, Entry<Asset>>, now: int, cantoLoaded: bool, req: Request)
    ensures SearchGate(env.config, cantoLoaded).Some? ==>
              SearchReply(env, net, store, now, cantoLoaded, req) == Error(SearchGate(env.config, cantoLoaded).value)
    ensures SearchGate(env.config, cantoLoaded).None? ==>
              (SearchReply(env, net, store, now, cantoLoaded, req).Assets? <==> SearchBase(env, net, req.query).Some?)
    ensures SearchGate(env.config, cantoLoaded).None? && SearchBase(env, net, req.query).Some? ==>
              var base := SearchBase(env, net, req.query).value;
              var r := SearchReply(env, net, store, now, cantoLoaded, req).assets;
              r == base || (NeedsSelected(req.selectedId, base) && |r| == |base| + 1 && r[1..] == base)
    ensures SearchGate(env.config, cantoLoaded).None? && SearchBase(env, net, req.query).Some? ==>
              var base := SearchBase(env, net, req.query).value;
              var sel := SingleAsset(env, net, store, now, req.selectedId);
              var r := SearchReply(env, net, store, now, cantoLoaded, req).assets;
              && (NeedsSelected(req.selectedId, base) && sel.Some? ==> r == [sel.value] + base)
              && (!NeedsSelected(req.selectedId, base) || sel.None? ==> r == base)
    ensures !cantoLoaded ==> SearchReply(env, net, store, now, cantoLoaded, req) == Error("Canto plugin not found")
  {
    if SearchGate(env.config, cantoLoaded).None? && SearchBase(env, net, req.query).Some? {
      var base := SearchBase(env, net, req.query).value;
      if NeedsSelected(req.selectedId, base) {
        SelectedAssetPlacement(req.selectedId, base, SingleAsset(env, net, store, now, req.selectedId));
      }
    }
  }

  /** `get_asset()` */
  function GetAssetReply(env: Env, net: Net, store: map<string, Entry<Asset>>, now: int, req: Request): Reply {
    if EmptyStr(req.assetId) then Error("Asset ID required")
    else
      match SingleAsset(env, net, store, now, req.assetId)
      case Some(a) => Single(a)
      case None => Error("Asset not found")
  }

  /** The configuration checks of `get_tree` and `get_album_assets`. */
  function TreeGate(config: Config): Option<string> {
    if !config.HasToken() then Some("Canto API token not configured")
    else if !config.HasDomain() then Some("Canto domain not configured")
    else None
  }

  /** `get_tree()` */
  function TreeReply(env: Env, net: Net, req: Request): (r: Reply)
    ensures r.Data? || r.Error?
    ensures TreeGate(env.config).Some? ==> r == Error(TreeGate(env.config).value)
  {
    match TreeGate(env.config)
    case Some(message) => Error(message)
    case None =>
      match CheckTreeResponse(net.decode, net.remote(TreeUrl(env.config, req.albumId)))
      case Payload(data) => Data(data)
      case ApiError(message) => Error(message)
  }

  /** One album probe: an accepted payload counts only when it holds an array
      under `results`. */
  function AlbumProbe(env: Env, decode: string -> Value, resp: Response): Option<seq<Asset>> {
    match AcceptPayload(decode, resp)
    case Some(data) =>
      if Get(data, "results").Some? && IsArray(Get(data, "results").value) then Some(FormatAll(env, ResultsOf(data))) else None
    case None => None
  }

  function AlbumHits(env: Env, net: Net, albumId: string): (hits: seq<Option<seq<Asset>>>)
    ensures |hits| == 3
  {
    var urls := AlbumUrls(env.config, net, albumId);
    seq(|urls|, i requires 0 <= i < |urls| => AlbumProbe(env, net.decode, net.remote(urls[i])))
  }

  /** `get_album_assets()`; the album id `all` runs the search instead. */
  function AlbumReply(env: Env, net: Net, store: map<string, Entry<Asset>>, now: int, cantoLoaded: bool, req: Request): (r: Reply)
    ensures r.Assets? || r.Error?
    ensures !env.config.HasToken() ==> r == Error("Canto API token not configured")
    ensures env.config.HasToken() && EmptyStr(req.albumId) ==> r == Error("Album ID required")
  {
    if !env.config.HasToken() then Error("Canto API token not configured")
    else if EmptyStr(req.albumId) then Error("Album ID required")
    else if req.albumId == "all" then SearchReply(env, net, store, now, cantoLoaded, req)
    else if !env.config.HasDomain() then Error("Canto domain not configured")
    else
      match FirstHit(AlbumHits(env, net, req.albumId))
      case Some(assets) => Assets(assets)
      case None => Assets([])
  }

  /** Once the token, the album id and the domain are present (and the id is
      not `all`), the album listing never fails: it is the normalised
      results of the first endpoint that answers with a results array, or
      the empty list when none does. */
  lemma AlbumReplyOutcomes(env: Env, net: Net, store: map<string, Entry<Asset>>, now: int, cantoLoaded: bool, req: Request)
    ensures env.config.HasToken() && !EmptyStr(req.albumId) && req.albumId != "all" && env.config.HasDomain() ==>
              var hits := AlbumHits(env, net, req.albumId);
              var r := AlbumReply(env, net, store, now, cantoLoaded, req);
              && r.Assets?
              && ((forall k | 0 <= k < 3 :: hits[k].None?) ==> r.assets == [])
              && (hits[0].Some? ==> r.assets == hits[0].value)
              && (hits[0].None? && hits[1].Some? ==> r.assets == hits[1].value)
              && (hits[0].None? && hits[1].None? && hits[2].Some? ==> r.assets == hits[2].value)
    ensures env.config.HasToken() && req.albumId == "all" ==>
              AlbumReply(env, net, store, now, cantoLoaded, req) == SearchReply(env, net, store, now, cantoLoaded, req)
  {
    if env.config.HasToken() && !EmptyStr(req.albumId) && req.albumId != "all" && env.config.HasDomain() {
      var hits := AlbumHits(env, net, req.albumId);
      if hits[0].Some? {
        FirstHitAt(hits, 0);
      } else if hits[1].Some? {
        FirstHitAt(hits, 1);
      } else if hits[2].Some? {
        FirstHitAt(hits, 2);
      } else {
        NoHit(hits);
      }
    }
  }

  // ---------------------------------------------------------------------
  // The handler
  // ---------------------------------------------------------------------

  class AjaxHandler {
    const site: Site
    /** `function_exists('Canto')`: the Canto plugin is loaded. */
    const cantoLoaded: bool

    constructor (site: Site, cantoLoaded: bool)
      ensures this.site == site && this.cantoLoaded == cantoLoaded
    {
      this.site := site;
      this.cantoLoaded := cantoLoaded;
    }

    /** `get_single_asset($asset_id)` */
    method GetSingleAsset(assetId: string) returns (r: Option<Asset>)
      modifies site
      ensures r == old(SingleAsset(site.env, site.net, site.transients, site.now, assetId))
      ensures site.requests == old(site.requests) + old(SingleRequests(site.env, site.net, site.transients, site.now, assetId))
      ensures site.transients == old(SingleStore(site.env, site.net, site.transients, site.now, assetId))
      ensures site.now == old(site.now)
    {
      var config := site.env.config;
      if !config.HasToken() || !config.HasDomain() {
        return None;
      }
      var key := AssetKey(assetId);
      var cached := site.GetTransient(key);
      if cached.Some? {
        return cached;
      }
      var urls := AssetUrls(config, assetId);
      ghost var hits := SingleHits(site.env, site.net, assetId);
      var i := 0;
      while i < |urls|
        invariant 0 <= i <= |urls|
        invariant forall j | 0 <= j < i :: hits[j].None?
        invariant site.requests == old(site.requests) + urls[..i]
        invariant site.transients == old(site.transients) && site.now == old(site.now)
      {
        var resp := site.RemoteGet(urls[i]);
        assert hits[i] == SingleProbe(site.env, site.net.decode, resp);
        assert urls[..i + 1] == urls[..i] + [urls[i]];
        if !resp.Transport? && resp.code == 200 && !EmptyStr(resp.body) {
          var data := site.net.decode(resp.body);
          if Truthy(data) && Get(data, "error").None? {
            var asset := AjaxRecord(site.env, data);
            if asset.Some? {
              FirstHitAt(hits, i);
              site.SetTransient(key, asset.value);
              return asset;
            }
          }
        }
        i := i + 1;
      }
      NoHit(hits);
      assert urls[..i] == urls;
      return None;
    }

    /** `search_assets()` */
    method SearchAssets(req: Request) returns (r: Reply)
      modifies site
      ensures r == old(SearchReply(site.env, site.net, site.transients, site.now, cantoLoaded, req))
      ensures site.requests == old(site.requests) + old(SearchRequests(site.env, site.net, site.transients, site.now, cantoLoaded, req))
      ensures site.transients == old(SearchStore(site.env, site.net, site.transients, site.now, cantoLoaded, req))
      ensures site.now == old(site.now)
    {
      var config := site.env.config;
      var gate := SearchGate(config, cantoLoaded);
      if gate.Some? {
        return Error(gate.value);
      }
      var resp := site.RemoteGet(SearchUrl(config, site.net, req.query));
      if resp.Transport? {
        return Error("API request failed: " + resp.message);
      }
      if EmptyStr(resp.body) {
        return Error("No response from Canto API");
      }
      if resp.code != 200 {
        return Error("API request failed with HTTP code: " + IntToString(resp.code) + ". Response: " + Prefix(resp.body, 200));
      }
      var data := site.net.decode(resp.body);
      if Empty(data) {
        return Error("Invalid JSON response from Canto API");
      }
      if Get(data, "error").Some? {
        return Error("Error from Canto API: " + StrOf(Get(data, "error").value));
      }
      var assets := FormatResults(site.env, ResultsOf(data));
      if !EmptyStr(req.selectedId) {
        var present := AssetInResults(req.selectedId, assets);
        if !present {
          var selected := GetSingleAsset(req.selectedId);
          if selected.Some? {
            assets := [selected.value] + assets;
          }
        }
      }
      return Assets(assets);
    }

    /** `get_asset()` */
    method GetAsset(req: Request) returns (r: Reply)
      modifies site
      ensures r == old(GetAssetReply(site.env, site.net, site.transients, site.now, req))
      ensures EmptyStr(req.assetId) ==> unchanged(site)
      ensures !EmptyStr(req.assetId) ==>
                && site.requests == old(site.requests) + old(SingleRequests(site.env, site.net, site.transients, site.now, req.assetId))
                && site.transients == old(SingleStore(site.env, site.net, site.transients, site.now, req.assetId))
                && site.now == old(site.now)
    {
      if EmptyStr(req.assetId) {
        return Error("Asset ID required");
      }
      var asset := GetSingleAsset(req.assetId);
      if asset.Some? {
        return Single(asset.value);
      }
      return Error("Asset not found");
    }

    /** `get_tree()` */
    method GetTree(req: Request) returns (r: Reply)
      modifies site
      ensures r == TreeReply(site.env, site.net, req)
      ensures site.requests == old(site.requests) + (if TreeGate(site.env.config).None? then [TreeUrl(site.env.config, req.albumId)] else [])
      ensures site.transients == old(site.transients) && site.now == old(site.now)
    {
      var config := site.env.config;
      var gate := TreeGate(config);
      if gate.Some? {
        return Error(gate.value);
      }
      var resp := site.RemoteGet(TreeUrl(config, req.albumId));
      if resp.Transport? {
        return Error("API request failed: " + resp.message);
      }
      if EmptyStr(resp.body) {
        return Error("No response from Canto API");
      }
      if resp.code == 404 {
        return Data(FallbackTree);
      }
      if resp.code != 200 {
        return Error("API request failed with HTTP code: " + IntToString(resp.code));
      }
      var data := site.net.decode(resp.body);
      if Empty(data) {
        return Error("Invalid JSON response from Canto API");
      }
      if Get(data, "error").Some? {
        return Error("Error from Canto API: " + StrOf(Get(data, "error").value));
      }
      return Data(data);
    }

    /** `get_album_assets()` */
    method GetAlbumAssets(req: Request) returns (r: Reply)
      modifies site
      ensures r == old(AlbumReply(site.env, site.net, site.transients, site.now, cantoLoaded, req))
      ensures site.now == old(site.now)
      ensures site.env.config.HasToken() && req.albumId == "all" ==>
                && site.requests == old(site.requests) + old(SearchRequests(site.env, site.net, site.transients, site.now, cantoLoaded, req))
                && site.transients == old(SearchStore(site.env, site.net, site.transients, site.now, cantoLoaded, req))
      ensures !(site.env.config.HasToken() && req.albumId == "all") ==>
                && site.transients == old(site.transients)
                && site.requests == old(site.requests)
                     + (if site.env.config.HasToken() && !EmptyStr(req.albumId) && site.env.config.HasDomain()
                        then AlbumUrls(site.env.config, site.net, req.albumId)[..Probed(AlbumHits(site.env, site.net, req.albumId))]
                        else [])
    {
      var config := site.env.config;
      if !config.HasToken() {
        return Error("Canto API token not configured");
      }
      if EmptyStr(req.albumId) {
        return Error("Album ID required");
      }
      if req.albumId == "all" {
        r := SearchAssets(req);
        return;
      }
      if !config.HasDomain() {
        return Error("Canto domain not configured");
      }
      var urls := AlbumUrls(config, site.net, req.albumId);
      ghost var hits := AlbumHits(site.env, site.net, req.albumId);
      var assets: seq<Asset> := [];
      var i := 0;
      while i < |urls|
        invariant 0 <= i <= |urls|
        invariant forall j | 0 <= j < i :: hits[j].None?
        invariant assets == []
        invariant site.requests == old(site.requests) + urls[..i]
        invariant site.transients == old(site.transients) && site.now == old(site.now)
      {
        var resp := site.RemoteGet(urls[i]);
        assert hits[i] == AlbumProbe(site.env, site.net.decode, resp);
        assert urls[..i + 1] == urls[..i] + [urls[i]];
        if !resp.Transport? && resp.code == 200 && !EmptyStr(resp.body) {
          var data := site.net.decode(resp.body);
          if Truthy(data) && Get(data, "error").None? {
            if Get(data, "results").Some? && IsArray(Get(data, "results").value) {
              assets := FormatResults(site.env, ResultsOf(data));
              FirstHitAt(hits, i);
              return Assets(assets);
            }
          }
        }
        i := i + 1;
      }
      NoHit(hits);
      assert urls[..i] == urls;
      return Assets([]);
    }
  }
}
