/**
 * The thumbnail proxy `ACF_Canto_Thumbnail_Proxy`: the rewrite rule that maps
 * `canto-thumbnail/<type>/<id>` to query variables, and the request handler
 * that fetches the authenticated preview from Canto and serves it. The
 * handler's status line, headers and body become a returned value.
 */
module Proxy {
  import opened Php
  import opened Wp
  import opened Asset

  const RoutePrefix: string := "canto-thumbnail/"

  /** The index of the first `/` in `s`. */
  function FirstSlash(s: string): (r: Option<nat>)
    ensures r.Some? ==> r.value < |s| && s[r.value] == '/' && forall k | 0 <= k < r.value :: s[k] != '/'
    ensures r.None? ==> forall k | 0 <= k < |s| :: s[k] != '/'
  {
    if s == [] then None
    else if s[0] == '/' then Some(0)
    else match FirstSlash(s[1..])
      case Some(i) => Some(i + 1)
      case None => None
  }

  predicate SlashFree(s: string) {
    forall k | 0 <= k < |s| :: s[k] != '/'
  }

  /** The segments `([^/]+)/([^/]+)/?$` after the route prefix. `$` also
      matches before a final newline, so a text ending in `/` and a newline
      is accepted too. */
  function MatchSegments(rest: string): Option<(string, string)> {
    match FirstSlash(rest)
    case None => None
    case Some(i) =>
      if i == 0 then None
      else
        var after := rest[i + 1..];
        match FirstSlash(after)
        case None => if after == "" then None else Some((rest[..i], after))
        case Some(j) =>
          if j > 0 && (after[j + 1..] == "" || after[j + 1..] == "\n") then Some((rest[..i], after[..j])) else None
  }

  /** The rewrite pattern `^canto-thumbnail/([^/]+)/([^/]+)/?$` applied to a
      request path, giving the two captured segments. */
  function MatchRoute(path: string): (r: Option<(string, string)>)
    ensures r.Some? ==> |path| > |RoutePrefix| && path[..|RoutePrefix|] == RoutePrefix && r.value.0 != "" && r.value.1 != ""
  {
    if |path| >= |RoutePrefix| && path[..|RoutePrefix|] == RoutePrefix then MatchSegments(path[|RoutePrefix|..]) else None
  }

  /** The path the normalisers build for a thumbnail is matched by the
      route, which gives back exactly the scheme and id it was built from. */
  lemma {:induction false} RouteRoundTrip(scheme: string, id: string)
    requires scheme != "" && id != "" && SlashFree(scheme) && SlashFree(id)
    ensures MatchRoute(ThumbnailPath(scheme, id)) == Some((scheme, id))
  {
    var path := ThumbnailPath(scheme, id);
    assert path == RoutePrefix + (scheme + "/" + id);
    var rest := path[|RoutePrefix|..];
    assert rest == scheme + ("/" + id);
    FirstSlashOf(scheme, "/" + id);
    assert FirstSlash(rest) == Some(|scheme|);
    assert rest[..|scheme|] == scheme;
    assert rest[|scheme| + 1..] == id;
    assert FirstSlash(id).None?;
  }

  /** The first slash of a slash-free word followed by a slash-led text is
      at the end of the word. */
  lemma {:induction false} FirstSlashOf(word: string, tail: string)
    requires SlashFree(word) && |tail| > 0 && tail[0] == '/'
    ensures FirstSlash(word + tail) == Some(|word|)
    decreases |word|
  {
    if word == [] {
      assert word + tail == tail;
    } else {
      assert (word + tail)[1..] == word[1..] + tail;
      FirstSlashOf(word[1..], tail);
    }
  }

  /** What the segment pattern accepts is two non-empty, slash-free
      segments joined by a slash, possibly followed by a slash (and a
      newline). */
  lemma SegmentsShape(rest: string)
    ensures MatchSegments(rest).Some? ==>
              var (a, b) := MatchSegments(rest).value;
              && a != "" && b != "" && SlashFree(a) && SlashFree(b)
              && (rest == a + "/" + b || rest == a + "/" + b + "/" || rest == a + "/" + b + "/\n")
  {
    if MatchSegments(rest).Some? {
      var i := FirstSlash(rest).value;
      var a := rest[..i];
      var after := rest[i + 1..];
      assert rest == a + "/" + after;
      match FirstSlash(after)
      case None =>
      case Some(j) =>
        var b := after[..j];
        var tail := after[j + 1..];
        assert after == b + "/" + tail;
        assert rest == a + "/" + b + "/" + tail;
    }
  }

  /** Whatever the route accepts is a thumbnail path of two non-empty,
      slash-free segments, possibly followed by a slash (and a newline). */
  lemma RouteAcceptsOnlyThumbnailPaths(path: string)
    ensures MatchRoute(path).Some? ==>
              var (a, b) := MatchRoute(path).value;
              && a != "" && b != "" && SlashFree(a) && SlashFree(b)
              && (path == ThumbnailPath(a, b) || path == ThumbnailPath(a, b) + "/" || path == ThumbnailPath(a, b) + "/\n")
  {
    if MatchRoute(path).Some? {
      var rest := path[|RoutePrefix|..];
      assert path == RoutePrefix + rest;
      SegmentsShape(rest);
      var (a, b) := MatchSegments(rest).value;
      assert ThumbnailPath(a, b) == RoutePrefix + (a + "/" + b);
    }
  }

  /** The query variables `canto_thumbnail`, `asset_type` and `asset_id`;
      an unset variable reads as "". */
  datatype QueryVars = QueryVars(thumbnail: string, assetType: string, assetId: string)

  /** The variables the rewrite rule sets for a request path. */
  function RouteVars(path: string): QueryVars {
    match MatchRoute(path)
    case Some((a, b)) => QueryVars("1", a, b)
    case None => QueryVars("", "", "")
  }

  /** What the handler does: nothing (WordPress carries on), a status with
      a short text, or the served image with its three headers. */
  datatype ProxyResult =
    | Pass
    | Status(code: int, text: string)
    | Serve(contentType: string, contentLength: int, cacheControl: string, body: string)

  /** `https://<domain>.<app_api>/api_binary/v1/<type>/<id>/preview` */
  function PreviewUrl(config: Config, assetType: string, assetId: string): string {
    config.Origin() + "/api_binary/v1/" + assetType + "/" + assetId + "/preview"
  }

  /** The handler reaches the upstream request. */
  predicate Forwards(config: Config, vars: QueryVars) {
    !EmptyStr(vars.thumbnail) && !EmptyStr(vars.assetType) && !EmptyStr(vars.assetId)
    && config.HasToken() && config.HasDomain()
  }

  /** The URLs the handler requests. */
  function ProxyRequests(config: Config, vars: QueryVars): seq<string> {
    if Forwards(config, vars) then [PreviewUrl(config, vars.assetType, vars.assetId)] else []
  }

  /** `serve_thumbnail($asset_type, $asset_id)` */
  function ServeThumbnail(config: Config, remote: string -> Response, assetType: string, assetId: string): ProxyResult {
    if !config.HasToken() || !config.HasDomain() then Status(404, "Not Found")
    else
      var resp := remote(PreviewUrl(config, assetType, assetId));
      if resp.Transport? then Status(404, "Not Found")
      else if resp.code != 200 || EmptyStr(resp.body) then Status(404, "Not Found")
      else
        Serve(if EmptyStr(resp.contentType) then "image/jpeg" else resp.contentType,
              |resp.body|, "public, max-age=3600", resp.body)
  }

  /** `handle_thumbnail_request()` */
  function HandleThumbnailRequest(config: Config, remote: string -> Response, vars: QueryVars): (r: ProxyResult)
    ensures EmptyStr(vars.thumbnail) <==> r == Pass
    ensures r.Status? ==> r.code == 400 || r.code == 404
  {
    if EmptyStr(vars.thumbnail) then Pass
    else if EmptyStr(vars.assetType) || EmptyStr(vars.assetId) then Status(400, "Bad Request")
    else ServeThumbnail(config, remote, vars.assetType, vars.assetId)
  }

  /** The decision tree: no flag, no action; a missing segment, 400; an
      unconfigured site, 404 whatever the upstream would say; an upstream
      failure, 404; otherwise the upstream body is served with its type (or
      `image/jpeg`), its exact length and a one-hour public cache. */
  lemma ProxyDecisions(config: Config, remote: string -> Response, other: string -> Response, vars: QueryVars)
    ensures EmptyStr(vars.thumbnail) <==> HandleThumbnailRequest(config, remote, vars) == Pass
    ensures !EmptyStr(vars.thumbnail) && (EmptyStr(vars.assetType) || EmptyStr(vars.assetId)) <==>
              HandleThumbnailRequest(config, remote, vars) == Status(400, "Bad Request")
    ensures !EmptyStr(vars.thumbnail) && !EmptyStr(vars.assetType) && !EmptyStr(vars.assetId)
            && (!config.HasToken() || !config.HasDomain()) ==>
              HandleThumbnailRequest(config, remote, vars) == Status(404, "Not Found")
    ensures !Forwards(config, vars) ==>
              ProxyRequests(config, vars) == []
              && HandleThumbnailRequest(config, remote, vars) == HandleThumbnailRequest(config, other, vars)
    ensures Forwards(config, vars) ==>
              var resp := remote(PreviewUrl(config, vars.assetType, vars.assetId));
              var r := HandleThumbnailRequest(config, remote, vars);
              && (r.Serve? <==> resp.Http? && resp.code == 200 && !EmptyStr(resp.body))
              && (!r.Serve? ==> r == Status(404, "Not Found"))
              && (r.Serve? ==> r.body == resp.body && r.contentLength == |resp.body|
                               && r.cacheControl == "public, max-age=3600"
                               && !EmptyStr(r.contentType)
                               && (!EmptyStr(resp.contentType) ==> r.contentType == resp.contentType))
  {
  }

  /** A thumbnail URL built by a normaliser for a configured site reaches
      the handler with its scheme and id and is forwarded to the preview
      endpoint for that scheme and id, unless one of them is "0", which
      `empty()` rejects with 400. */
  lemma ProxyPathIsServed(config: Config, remote: string -> Response, scheme: string, id: string)
    requires scheme != "" && id != "" && SlashFree(scheme) && SlashFree(id)
    requires config.HasToken() && config.HasDomain()
    ensures var vars := RouteVars(ThumbnailPath(scheme, id));
            && vars == QueryVars("1", scheme, id)
            && (scheme != "0" && id != "0" ==>
                  && ProxyRequests(config, vars) == [PreviewUrl(config, scheme, id)]
                  && HandleThumbnailRequest(config, remote, vars) == ServeThumbnail(config, remote, scheme, id))
            && (scheme == "0" || id == "0" ==> HandleThumbnailRequest(config, remote, vars) == Status(400, "Bad Request"))
  {
    RouteRoundTrip(scheme, id);
  }
}
