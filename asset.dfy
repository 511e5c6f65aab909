/**
 * The asset normaliser: the three places where the plugin turns a decoded
 * Canto record into its canonical asset array.
 *
 *  - `SearchRecord`: `format_asset_data_from_search` in the field class;
 *  - `ByIdRecord`: the normalising half of `get_canto_asset_data` in the
 *    field class;
 *  - `AjaxRecord`: `format_asset_data` in the AJAX handler.
 *
 * They share scheme inference and the thumbnail and download URL rules, and
 * differ in which fallbacks they apply and which keys they fill.
 */
module Asset {
  import opened Php
  import opened Wp

  /** What the normaliser reads besides the payload: the Canto options,
      `home_url`, the plugin's base URL (`plugin_dir_url`) and `size_format`. */
  datatype Env = Env(
    config: Config,
    homeUrl: string -> string,
    pluginUrl: string,
    sizeFormat: Value -> Value)

  /** The canonical asset array. `filename` is `None` for the record built
      by the AJAX handler, which has no `filename` key. */
  datatype Asset = Asset(
    id: Value,
    scheme: Value,
    name: Value,
    filename: Option<Value>,
    url: Value,
    thumbnail: Value,
    downloadUrl: Value,
    dimensions: Value,
    mimeType: Value,
    size: Value,
    uploaded: Value,
    metadata: Value)

  /** The metadata keys searched for a filename, in order. */
  const FilenameAliases: seq<string> := ["Filename", "File Name", "Original Filename", "filename", "file_name"]

  /** `$data['url'][$key]` when set. */
  function UrlField(data: Value, key: string): Option<Value> {
    match Get(data, "url")
    case Some(u) => Get(u, key)
    case None => None
  }

  function UrlFieldOr(data: Value, key: string): Value {
    match UrlField(data, key)
    case Some(v) => v
    case None => Str("")
  }

  // ---------------------------------------------------------------------
  // Scheme
  // ---------------------------------------------------------------------

  /** The explicit `scheme` if set; otherwise read off the preview URL. */
  function InferScheme(data: Value): Value {
    match Get(data, "scheme")
    case Some(s) => s
    case None =>
      match UrlField(data, "preview")
      case Some(p) =>
        if Contains(StrOf(p), "/video/") then Str("video")
        else if Contains(StrOf(p), "/document/") then Str("document")
        else Str("image")
      case None => Str("image")
  }

  /** An explicit scheme is kept verbatim. Otherwise the scheme is one of
      the three kinds, and it is not `image` only when the preview URL
      carries the matching path segment, `/video/` taking precedence. */
  lemma SchemeInference(data: Value)
    ensures Get(data, "scheme").Some? ==> InferScheme(data) == Get(data, "scheme").value
    ensures Get(data, "scheme").None? ==>
              InferScheme(data) in {Str("image"), Str("video"), Str("document")}
    ensures Get(data, "scheme").None? && InferScheme(data) == Str("video") <==>
              Get(data, "scheme").None? && UrlField(data, "preview").Some?
              && Contains(StrOf(UrlField(data, "preview").value), "/video/")
    ensures Get(data, "scheme").None? && InferScheme(data) == Str("document") <==>
              Get(data, "scheme").None? && UrlField(data, "preview").Some?
              && !Contains(StrOf(UrlField(data, "preview").value), "/video/")
              && Contains(StrOf(UrlField(data, "preview").value), "/document/")
  {
  }

  // ---------------------------------------------------------------------
  // Filename
  // ---------------------------------------------------------------------

  /** `isset($meta[$key]) && !empty($meta[$key])` */
  predicate FilledAt(meta: map<string, Value>, key: string) {
    key in meta && !Empty(meta[key])
  }

  /** The `foreach` over the alias list with `break` at the first filled
      alias; "" when none is filled. */
  function FirstFilledAlias(meta: map<string, Value>, aliases: seq<string>): Value {
    if aliases == [] then Str("")
    else if FilledAt(meta, aliases[0]) then meta[aliases[0]]
    else FirstFilledAlias(meta, aliases[1..])
  }

  /** The filename found in the `default` metadata map, or "". */
  function MetadataFilename(data: Value): Value {
    match Get(data, "default")
    case Some(d) => if d.Dict? then FirstFilledAlias(d.fields, FilenameAliases) else Str("")
    case None => Str("")
  }

  /** The last `k` characters of `s` are alphanumeric and preceded by a dot. */
  predicate ExtensionAt(s: string, k: nat) {
    k + 1 <= |s| && s[|s| - k - 1] == '.' && forall j | |s| - k <= j < |s| :: IsAlnum(s[j])
  }

  predicate EndsWithExtension(s: string) {
    exists k: nat | 2 <= k <= 5 :: ExtensionAt(s, k)
  }

  /** `preg_match('/\.[a-zA-Z0-9]{2,5}$/', $s)`; PCRE's `$` also matches
      just before a final newline. */
  predicate HasExtension(s: string) {
    EndsWithExtension(s) || (|s| > 0 && s[|s| - 1] == '\n' && EndsWithExtension(s[..|s| - 1]))
  }

  /** `preg_replace('/[^a-zA-Z0-9_-]/', '_', $s)` */
  function Sanitise(s: string): string {
    seq(|s|, i requires 0 <= i < |s| => if IsWordChar(s[i]) then s[i] else '_')
  }

  /** `$extension_map[$scheme]`, `bin` for any other scheme. */
  function ExtensionFor(scheme: Value): string {
    if scheme == Str("image") then "jpg"
    else if scheme == Str("video") then "mp4"
    else if scheme == Str("document") then "pdf"
    else "bin"
  }

  /** The filename the field variants store: from the metadata aliases, else
      the name when it already ends in an extension, else synthesised from
      the name and the scheme. */
  function DeriveFilename(data: Value, name: Value, scheme: Value): Value {
    var fromMeta := MetadataFilename(data);
    if !Empty(fromMeta) then fromMeta
    else if HasExtension(StrOf(name)) then name
    else Str(Sanitise(StrOf(name)) + "." + ExtensionFor(scheme))
  }

  /** The alias scan yields the value of the earliest filled alias, and ""
      exactly when no alias is filled. */
  lemma {:induction false} FirstFilledAliasIsEarliest(meta: map<string, Value>, aliases: seq<string>)
    ensures Empty(FirstFilledAlias(meta, aliases)) <==>
              forall j | 0 <= j < |aliases| :: !FilledAt(meta, aliases[j])
    ensures !Empty(FirstFilledAlias(meta, aliases)) ==>
              exists k | 0 <= k < |aliases| ::
                FilledAt(meta, aliases[k]) && FirstFilledAlias(meta, aliases) == meta[aliases[k]]
                && forall j | 0 <= j < k :: !FilledAt(meta, aliases[j])
  {
    if aliases != [] {
      FirstFilledAliasIsEarliest(meta, aliases[1..]);
      if !FilledAt(meta, aliases[0]) {
        if !Empty(FirstFilledAlias(meta, aliases[1..])) {
          var k :| 0 <= k < |aliases[1..]| && FilledAt(meta, aliases[1..][k])
                   && FirstFilledAlias(meta, aliases[1..]) == meta[aliases[1..][k]]
                   && forall j | 0 <= j < k :: !FilledAt(meta, aliases[1..][j]);
          assert forall j | 0 <= j < k + 1 :: !FilledAt(meta, aliases[j]) by {
            forall j | 0 <= j < k + 1 ensures !FilledAt(meta, aliases[j]) {
              if j > 0 { assert aliases[j] == aliases[1..][j - 1]; }
            }
          }
          assert aliases[k + 1] == aliases[1..][k];
        } else {
          forall j | 0 <= j < |aliases| ensures !FilledAt(meta, aliases[j]) {
            if j > 0 { assert aliases[j] == aliases[1..][j - 1]; }
          }
        }
      }
    }
  }

  /** The filename rule of the field variants: the value of the earliest
      filled alias in the `default` map; failing that, the name itself when
      it ends in a dot and two to five alphanumerics; failing that, the
      synthesised name. */
  lemma FilenameRule(data: Value, name: Value, scheme: Value)
    ensures var f := DeriveFilename(data, name, scheme);
            var synthesised := if HasExtension(StrOf(name)) then name else Str(Sanitise(StrOf(name)) + "." + ExtensionFor(scheme));
            && (Get(data, "default").Some? && Get(data, "default").value.Dict? ==>
                  var meta := Get(data, "default").value.fields;
                  && ((exists k | 0 <= k < |FilenameAliases| :: FilledAt(meta, FilenameAliases[k])) ==>
                        exists k | 0 <= k < |FilenameAliases| ::
                          FilledAt(meta, FilenameAliases[k]) && f == meta[FilenameAliases[k]]
                          && forall j | 0 <= j < k :: !FilledAt(meta, FilenameAliases[j]))
                  && ((forall k | 0 <= k < |FilenameAliases| :: !FilledAt(meta, FilenameAliases[k])) ==> f == synthesised))
            && (!(Get(data, "default").Some? && Get(data, "default").value.Dict?) ==> f == synthesised)
  {
    if Get(data, "default").Some? && Get(data, "default").value.Dict? {
      FirstFilledAliasIsEarliest(Get(data, "default").value.fields, FilenameAliases);
    }
  }

  /** A synthesised filename is the sanitised name, one dot and the scheme's
      extension: the stem has the name's length, keeps every allowed
      character, replaces every other one by `_`, and the result contains
      only `[A-Za-z0-9_.-]` with exactly one dot. */
  lemma SynthesisedFilenameShape(name: string, scheme: Value)
    ensures var f := Sanitise(name) + "." + ExtensionFor(scheme);
            && |Sanitise(name)| == |name|
            && (forall i | 0 <= i < |name| ::
                  Sanitise(name)[i] == (if IsWordChar(name[i]) then name[i] else '_'))
            && (forall i | 0 <= i < |f| :: IsWordChar(f[i]) || f[i] == '.')
            && (forall i | 0 <= i < |f| :: f[i] == '.' <==> i == |name|)
            && ExtensionFor(scheme) in {"jpg", "mp4", "pdf", "bin"}
  {
    var f := Sanitise(name) + "." + ExtensionFor(scheme);
    forall i | 0 <= i < |f| ensures (IsWordChar(f[i]) || f[i] == '.') && (f[i] == '.' <==> i == |name|) {
      if i < |name| {
        assert f[i] == Sanitise(name)[i];
      } else if i > |name| {
        assert f[i] == ExtensionFor(scheme)[i - |name| - 1];
      }
    }
  }

  /** Every derived filename is non-empty in PHP's sense, so the stored
      field value is never blank or "0". */
  lemma DerivedFilenameFilled(data: Value, name: Value, scheme: Value)
    ensures !Empty(DeriveFilename(data, name, scheme))
  {
    var s := StrOf(name);
    if Empty(MetadataFilename(data)) && HasExtension(s) {
      var t := if EndsWithExtension(s) then s else s[..|s| - 1];
      var k: nat :| 2 <= k <= 5 && ExtensionAt(t, k);
      assert |s| >= 3;
      assert s[|t| - k - 1] == '.';
    }
  }

  // ---------------------------------------------------------------------
  // Thumbnail and download URLs
  // ---------------------------------------------------------------------

  /** The path the thumbnail proxy serves: `canto-thumbnail/<scheme>/<id>`. */
  function ThumbnailPath(scheme: string, id: string): string {
    "canto-thumbnail/" + scheme + "/" + id
  }

  /** The bundled placeholder chosen by `switch ($scheme)`. */
  function DefaultThumbnail(env: Env, scheme: Value): (t: Value)
    ensures t.Str? && |t.s| > 0
    ensures LooseEqualsWord(scheme, "video") ==> t == Str(env.pluginUrl + "assets/images/default-video.svg")
    ensures !LooseEqualsWord(scheme, "video") && LooseEqualsWord(scheme, "document") ==>
              t == Str(env.pluginUrl + "assets/images/default-document.svg")
    ensures !LooseEqualsWord(scheme, "video") && !LooseEqualsWord(scheme, "document") ==>
              t == Str(env.pluginUrl + "assets/images/default-image.svg")
  {
    var kind := if LooseEqualsWord(scheme, "video") then "video"
                else if LooseEqualsWord(scheme, "document") then "document"
                else "image";
    Str(env.pluginUrl + "assets/images/default-" + kind + ".svg")
  }

  /** The thumbnail fallback chain: `directUrlPreview`, then (with a domain)
      the local proxy URL, then, when `withDefault`, the placeholder. */
  function ThumbnailChain(env: Env, data: Value, scheme: Value, idText: string, withDefault: bool): Value {
    var direct := UrlFieldOr(data, "directUrlPreview");
    var proxied := if Empty(direct) && env.config.HasDomain()
                   then Str(env.homeUrl(ThumbnailPath(StrOf(scheme), idText)))
                   else direct;
    if withDefault && Empty(proxied) then DefaultThumbnail(env, scheme) else proxied
  }

  /** The binary endpoint built when the payload has no download URL; none
      for a scheme other than the three kinds (compared with `===`). */
  function BinaryDownloadUrl(config: Config, scheme: Value, idText: string): Option<string> {
    var base := config.Origin() + "/api_binary/v1/";
    if scheme == Str("image") then Some(base + "advance/image/" + idText + "/download/directuri?type=jpg&dpi=72")
    else if scheme == Str("video") then Some(base + "video/" + idText + "/download")
    else if scheme == Str("document") then Some(base + "document/" + idText + "/download")
    else None
  }

  /** The upstream `download` URL, replaced (with a domain and a known
      scheme) by the binary endpoint when it is empty. */
  function DownloadChain(config: Config, data: Value, scheme: Value, idText: string): Value {
    var upstream := UrlFieldOr(data, "download");
    if Empty(upstream) && config.HasDomain() && BinaryDownloadUrl(config, scheme, idText).Some?
    then Str(BinaryDownloadUrl(config, scheme, idText).value)
    else upstream
  }

  /** `$data['default'][$key]` lifted to a top-level field, "" when unset. */
  function Lifted(data: Value, key: string): Value {
    match Get(data, "default")
    case Some(d) => GetOr(d, key, Str(""))
    case None => Str("")
  }

  function FormattedSize(env: Env, data: Value): Value {
    match Get(data, "size")
    case Some(n) => env.sizeFormat(n)
    case None => Str("")
  }

  // ---------------------------------------------------------------------
  // The three normalisers
  // ---------------------------------------------------------------------

  /** `format_asset_data_from_search`: false unless the payload is an array
      with an `id`. */
  function SearchRecord(env: Env, data: Value): (r: Option<Asset>)
    ensures r.Some? <==> IsArray(data) && Get(data, "id").Some?
    ensures r.Some? ==> r.value.id == Get(data, "id").value && r.value.scheme == InferScheme(data) && r.value.filename.Some?
  {
    if !IsArray(data) || Get(data, "id").None? then None
    else
      var id := Get(data, "id").value;
      var scheme := InferScheme(data);
      var name := GetOr(data, "name", Str("Untitled"));
      Some(Asset(
        id := id,
        scheme := scheme,
        name := name,
        filename := Some(DeriveFilename(data, name, scheme)),
        url := UrlFieldOr(data, "preview"),
        thumbnail := ThumbnailChain(env, data, scheme, StrOf(id), false),
        downloadUrl := UrlFieldOr(data, "download"),
        dimensions := Str(""),
        mimeType := Str(""),
        size := Str(""),
        uploaded := GetOr(data, "lastUploaded", Str("")),
        metadata := GetOr(data, "default", List([]))))
  }

  /** The record `get_canto_asset_data` builds from the first accepted
      payload; its `id` is the requested id, whatever the payload says. */
  function ByIdRecord(env: Env, assetId: string, data: Value): (r: Asset)
    ensures r.id == Str(assetId) && r.scheme == InferScheme(data) && r.filename.Some? && !Empty(r.thumbnail)
  {
    var scheme := InferScheme(data);
    var name := GetOr(data, "name", Str("Untitled"));
    Asset(
      id := Str(assetId),
      scheme := scheme,
      name := name,
      filename := Some(DeriveFilename(data, name, scheme)),
      url := UrlFieldOr(data, "preview"),
      thumbnail := ThumbnailChain(env, data, scheme, assetId, true),
      downloadUrl := DownloadChain(env.config, data, scheme, assetId),
      dimensions := Lifted(data, "Dimensions"),
      mimeType := Lifted(data, "Content Type"),
      size := FormattedSize(env, data),
      uploaded := GetOr(data, "lastUploaded", Str("")),
      metadata := GetOr(data, "default", List([])))
  }

  /** `format_asset_data` in the AJAX handler: false unless the payload is
      an array with an `id`; no `filename` key. */
  function AjaxRecord(env: Env, data: Value): (r: Option<Asset>)
    ensures r.Some? <==> IsArray(data) && Get(data, "id").Some?
    ensures r.Some? ==>
              && r.value.id == Get(data, "id").value && r.value.scheme == InferScheme(data)
              && r.value.filename.None? && !Empty(r.value.thumbnail)
  {
    if !IsArray(data) || Get(data, "id").None? then None
    else
      var id := Get(data, "id").value;
      var scheme := InferScheme(data);
      var meta := GetOr(data, "default", Null);
      Some(Asset(
        id := id,
        scheme := scheme,
        name := GetOr(data, "name", Str("Untitled")),
        filename := None,
        url := UrlFieldOr(data, "preview"),
        thumbnail := ThumbnailChain(env, data, scheme, StrOf(id), true),
        downloadUrl := DownloadChain(env.config, data, scheme, StrOf(id)),
        dimensions := Lifted(data, "Dimensions"),
        mimeType := Lifted(data, "Content Type"),
        size := FormattedSize(env, data),
        uploaded := GetOr(data, "lastUploaded", Str("")),
        metadata := if IsArray(meta) then meta else List([])))
  }

  // ---------------------------------------------------------------------
  // Properties of the normalisers
  // ---------------------------------------------------------------------

  /** Both id-checking normalisers reject exactly the payloads that are not
      arrays with an `id`, and otherwise copy that `id`. */
  lemma NormalisersRequireId(env: Env, data: Value)
    ensures SearchRecord(env, data).None? <==> !(data.Dict? && "id" in data.fields && data.fields["id"] != Null)
    ensures AjaxRecord(env, data).None? <==> SearchRecord(env, data).None?
    ensures SearchRecord(env, data).Some? ==>
              SearchRecord(env, data).value.id == data.fields["id"]
              && AjaxRecord(env, data).value.id == data.fields["id"]
  {
  }

  /** With the placeholder as last resort (AJAX variant and
      `get_canto_asset_data`) the thumbnail is never empty; the search
      variant may leave it empty, but only when there is neither a direct
      preview URL nor a domain. */
  lemma ThumbnailAlwaysSet(env: Env, data: Value, assetId: string)
    ensures AjaxRecord(env, data).Some? ==> !Empty(AjaxRecord(env, data).value.thumbnail)
    ensures !Empty(ByIdRecord(env, assetId, data).thumbnail)
    ensures SearchRecord(env, data).Some? && Empty(SearchRecord(env, data).value.thumbnail) ==>
              && Empty(UrlFieldOr(data, "directUrlPreview"))
              && (env.config.HasDomain() ==>
                    var s := SearchRecord(env, data).value;
                    EmptyStr(env.homeUrl(ThumbnailPath(StrOf(s.scheme), StrOf(s.id)))))
  {
  }

  /** The thumbnail order: a non-empty `directUrlPreview` wins in every
      variant; without one, a configured domain gives the proxy URL. */
  lemma ThumbnailOrder(env: Env, data: Value, assetId: string)
    requires SearchRecord(env, data).Some?
    ensures var direct := UrlFieldOr(data, "directUrlPreview");
            var s := SearchRecord(env, data).value;
            var a := AjaxRecord(env, data).value;
            var b := ByIdRecord(env, assetId, data);
            && (!Empty(direct) ==> s.thumbnail == direct && a.thumbnail == direct && b.thumbnail == direct)
            && (Empty(direct) && env.config.HasDomain() ==>
                  var proxy := Str(env.homeUrl(ThumbnailPath(StrOf(s.scheme), StrOf(s.id))));
                  var proxyById := Str(env.homeUrl(ThumbnailPath(StrOf(s.scheme), assetId)));
                  && s.thumbnail == proxy
                  && a.thumbnail == (if Empty(proxy) then DefaultThumbnail(env, s.scheme) else proxy)
                  && b.thumbnail == (if Empty(proxyById) then DefaultThumbnail(env, s.scheme) else proxyById))
            && (Empty(direct) && !env.config.HasDomain() ==>
                  a.thumbnail == DefaultThumbnail(env, s.scheme) && b.thumbnail == a.thumbnail)
  {
  }

  /** The download URL of the AJAX and by-id variants: the upstream
      `download` if non-empty; otherwise, with a domain, the binary
      endpoint of the scheme, left unchanged for any other scheme. */
  lemma DownloadRule(config: Config, data: Value, scheme: Value, idText: string)
    ensures var d := DownloadChain(config, data, scheme, idText);
            var up := UrlFieldOr(data, "download");
            var base := "https://" + config.domain + "." + config.ApiHost() + "/api_binary/v1/";
            && (!Empty(up) || !config.HasDomain() ==> d == up)
            && (Empty(up) && config.HasDomain() ==>
                  && (scheme == Str("image") ==>
                        d == Str(base + "advance/image/" + idText + "/download/directuri?type=jpg&dpi=72"))
                  && (scheme == Str("video") ==> d == Str(base + "video/" + idText + "/download"))
                  && (scheme == Str("document") ==> d == Str(base + "document/" + idText + "/download"))
                  && (scheme !in {Str("image"), Str("video"), Str("document")} ==> d == up))
  {
  }

  /** What sets the variants apart: only the field variants have a
      filename; the search variant never fills the download URL from the
      binary endpoint nor the dimensions, MIME type or size; the AJAX
      variant drops a `default` that is not an array, the others keep it. */
  lemma VariantDifferences(env: Env, data: Value, assetId: string)
    requires SearchRecord(env, data).Some?
    ensures var s := SearchRecord(env, data).value;
            var a := AjaxRecord(env, data).value;
            var b := ByIdRecord(env, assetId, data);
            && a.filename.None? && s.filename.Some? && b.filename.Some?
            && s.downloadUrl == UrlFieldOr(data, "download")
            && s.dimensions == Str("") && s.mimeType == Str("") && s.size == Str("")
            && (Get(data, "default").Some? && !IsArray(Get(data, "default").value) ==>
                  s.metadata == Get(data, "default").value && b.metadata == s.metadata
                  && a.metadata == List([]))
            && (Get(data, "default").Some? && IsArray(Get(data, "default").value) ==>
                  a.metadata == s.metadata && b.metadata == s.metadata)
  {
  }

  /** Where the variants agree: the same payload gives the same scheme,
      name, preview URL, upload date and (search and by-id) filename. */
  lemma VariantAgreement(env: Env, data: Value, assetId: string)
    requires SearchRecord(env, data).Some?
    ensures var s := SearchRecord(env, data).value;
            var a := AjaxRecord(env, data).value;
            var b := ByIdRecord(env, assetId, data);
            && s.scheme == a.scheme == b.scheme == InferScheme(data)
            && s.name == a.name == b.name
            && s.url == a.url == b.url
            && s.uploaded == a.uploaded == b.uploaded
            && s.filename == b.filename
            && a.dimensions == b.dimensions && a.mimeType == b.mimeType && a.size == b.size
  {
  }

  /** The `default` entries `Dimensions` and `Content Type` and the
      top-level `lastUploaded` are lifted as they are; an absent key (or an
      absent `default`) leaves "". Without a `size` the size is "". */
  lemma MetadataLifting(env: Env, data: Value)
    requires AjaxRecord(env, data).Some?
    ensures var a := AjaxRecord(env, data).value;
            var d := Get(data, "default");
            && (d.Some? && Get(d.value, "Dimensions").Some? ==> a.dimensions == Get(d.value, "Dimensions").value)
            && (d.None? || Get(d.value, "Dimensions").None? ==> a.dimensions == Str(""))
            && (d.Some? && Get(d.value, "Content Type").Some? ==> a.mimeType == Get(d.value, "Content Type").value)
            && (d.None? || Get(d.value, "Content Type").None? ==> a.mimeType == Str(""))
            && (Get(data, "lastUploaded").Some? ==> a.uploaded == Get(data, "lastUploaded").value)
            && (Get(data, "lastUploaded").None? ==> a.uploaded == Str(""))
            && (Get(data, "size").None? ==> a.size == Str(""))
  {
  }

  /** A record built from a payload has its `url` key set (possibly to ""),
      so the `url` return format always finds it. */
  lemma UrlKeyAlwaysSet(env: Env, data: Value, assetId: string)
    ensures SearchRecord(env, data).Some? ==> SearchRecord(env, data).value.url != Null
    ensures AjaxRecord(env, data).Some? ==> AjaxRecord(env, data).value.url != Null
    ensures ByIdRecord(env, assetId, data).url != Null
  {
  }

  /** Payload `{id: "abc123", name: "Summer.jpg", default: {"Content Type":
      "image/jpeg"}}`: an image whose filename is its name. */
  lemma SummerJpgExample(env: Env)
    ensures var data := Dict(map["id" := Str("abc123"), "name" := Str("Summer.jpg"),
                                 "default" := Dict(map["Content Type" := Str("image/jpeg")])]);
            var b := ByIdRecord(env, "abc123", data);
            b.scheme == Str("image") && b.filename == Some(Str("Summer.jpg"))
            && b.mimeType == Str("image/jpeg") && b.id == Str("abc123")
  {
    var data := Dict(map["id" := Str("abc123"), "name" := Str("Summer.jpg"),
                         "default" := Dict(map["Content Type" := Str("image/jpeg")])]);
    var meta := map["Content Type" := Str("image/jpeg")];
    assert FirstFilledAlias(meta, FilenameAliases[4..]) == Str("");
    assert FirstFilledAlias(meta, FilenameAliases[3..]) == Str("");
    assert FirstFilledAlias(meta, FilenameAliases[2..]) == Str("");
    assert FirstFilledAlias(meta, FilenameAliases[1..]) == Str("");
    assert MetadataFilename(data) == Str("");
    assert ExtensionAt("Summer.jpg", 3);
    assert HasExtension("Summer.jpg");
    assert InferScheme(data) == Str("image");
  }

  /** Payload `{id: "v1", url: {preview: "https://x/video/v1"}}` without a
      `scheme` is a video. */
  lemma VideoPreviewExample()
    ensures InferScheme(Dict(map["id" := Str("v1"),
                                 "url" := Dict(map["preview" := Str("https://x/video/v1")])]))
            == Str("video")
  {
    assert OccursAt("https://x/video/v1", "/video/", 9);
  }
}
