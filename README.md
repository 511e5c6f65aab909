# ACF Canto Field — a Dafny model of asset resolution

This project models how the WordPress plugin "ACF Canto Field" resolves
assets. The plugin adds a field type to Advanced Custom Fields. An editor
picks an image, video or document from the Canto digital-asset-management
service, and the field stores the asset's filename. When a post is
displayed, the plugin resolves that filename (or an asset id) back to a
record: scheme, name, filename, preview URL, thumbnail, download URL,
dimensions, MIME type, size and metadata. It does this by querying Canto's
REST API, and it keeps each answer for an hour in a WordPress transient.

The model covers:

- the three normalisers that turn a Canto payload into an asset record;
- the cache-through resolvers: search by filename, probe by id (in the
  field class and in the AJAX handler), album listing, and the picker's
  search with the selected asset pulled in;
- return-format selection, validation and legacy values of the field;
- the identifier dispatch of the global helper `acf_canto_get_asset`;
- the logger's level filter and line format;
- the thumbnail proxy's rewrite route and its 400/404/200 decision.

Layout, one module per file:

| file | module | contents |
|---|---|---|
| php.dfy | Php | PHP values (`null`, bools, ints, strings, lists, arrays with keys), `empty()`, `isset` lookups, string conversion |
| wp.dfy | Wp | site configuration, HTTP responses, the injected services, accepting a payload, first-success probing, transients with expiry |
| asset.dfy | Asset | the asset record, scheme inference, filename derivation, thumbnail and download chains, the three normalisers |
| store.dfy | Store | `Site`: the transient store, the clock and the log of outgoing requests, as a class mutated in place |
| field.dfy | Field | `ACF_Field_Canto`: filename search, id lookup, return formats, validation |
| ajax.dfy | Ajax | `ACF_Canto_AJAX_Handler`: search, single asset, tree, album |
| bootstrap.dfy | Bootstrap | `acf_canto_get_asset` and `acf_canto_find_asset_by_filename` |
| logger.dfy | Logging | `ACF_Canto_Logger` |
| proxy.dfy | Proxy | `ACF_Canto_Thumbnail_Proxy` |

Each resolver exists in two forms:

- a *specification function* over explicit state (store, clock, responses);
- a *method* on a class that holds the `Site`, stated against that function.

Each method's `ensures` gives its result, the URLs it requests, in order,
and the new transient store, all as functions of the old state. The
properties the plugin promises are proved as lemmas about those functions.
The loops of the source stay loops: the two passes over the search results,
the probes over endpoints, the normalising `foreach`, and
`asset_in_results`.

Services the plugin calls are parameters, gathered in `Wp.Net`:

- `wp_remote_get` is a function from URL to a transport error or an HTTP
  response;
- `json_decode` is an uninterpreted function from string to value;
- `md5` and `urlencode` are uninterpreted functions.

The site's settings and helpers are values in `Wp.Config` and `Asset.Env`:

- `get_option` becomes the `Config` fields: domain, API host (defaulting
  to `canto.com`) and token;
- `home_url`, `plugin_dir_url` and `size_format` are functions in `Env`.

PHP details the model keeps:

- `empty()` is true for `""` and `"0"`, as well as for `null`, `false`, `0`
  and `[]`;
- `isset` is false for a missing key and for `null`;
- `===` compares values structurally;
- `$` in a PCRE pattern also matches before one final newline.

## Model

| member | source | states |
|---|---|---|
| Wp.Config.ApiHost | includes/class-acf-field-canto.php:570 | the API host is the `fbc_app_api` option, or `canto.com` when that option is empty |
| Wp.AcceptPayload | includes/class-acf-field-canto.php:592-604 | a response is accepted exactly when it is HTTP 200 with a non-empty body that decodes to a non-empty value without an `error` key, and then the result is that decoded value |
| Wp.FirstHitAt | includes/class-acf-field-canto.php:577-606 | when probe k is the first to succeed, the probing result is probe k's payload, and exactly the first k+1 URLs are requested |
| Wp.NoHit | includes/class-acf-field-canto.php:577-613 | when no probe succeeds, the result is nothing and every URL is requested |
| Wp.FirstHitIsEarliest | includes/class-acf-field-canto.php:577-606 | the probing result is present iff some probe succeeds, and then it comes from the earliest successful probe |
| Wp.TransientLifetime | includes/class-acf-field-canto.php:742 | a value written with `HOUR_IN_SECONDS` reads back unchanged for the next 3600 seconds, is gone afterwards, and the write leaves every other key as it was |
| Store.Site.GetTransient | includes/class-acf-field-canto.php:556-565 | `get_transient` returns the stored value while it has not expired and false afterwards; the store and the clock are unchanged |
| Store.Site.SetTransient | includes/class-acf-field-canto.php:742 | `set_transient` stores the value under the key with expiry now + 3600 and changes no other key |
| Store.Site.RemoteGet | includes/class-acf-field-canto.php:588 | `wp_remote_get` returns the oracle's response for the URL and appends the URL to the request log, and nothing else changes |
| Asset.SchemeInference | includes/class-acf-field-canto.php:446-456 | an explicit `scheme` is kept; otherwise the scheme is `video` iff the preview URL contains `/video/`, `document` iff it contains `/document/` but not `/video/`, and `image` otherwise |
| Asset.FirstFilledAliasIsEarliest | includes/class-acf-field-canto.php:474-482 | the alias scan yields "" iff no alias is filled, and otherwise it yields the value of the earliest filled alias |
| Asset.FilenameRule | includes/class-acf-field-canto.php:474-494 | the filename is the earliest filled alias among `Filename`, `File Name`, `Original Filename`, `filename`, `file_name`; failing that, the name when it ends in a dot and 2–5 alphanumerics; failing that, the synthesised name |
| Asset.SynthesisedFilenameShape | includes/class-acf-field-canto.php:489-492 | a synthesised filename has a stem as long as the name where every character outside `[A-Za-z0-9_-]` becomes `_`; exactly one dot follows it, then `jpg`, `mp4`, `pdf` or `bin` |
| Asset.DerivedFilenameFilled | includes/class-acf-field-canto.php:484-494 | every derived filename is non-empty in PHP's sense |
| Asset.DefaultThumbnail | includes/class-acf-canto-ajax.php:362-376 | the placeholder chosen by the `switch` on the scheme is `default-video.svg` for a scheme loosely equal to `video`, `default-document.svg` for one loosely equal to `document`, and `default-image.svg` for anything else, under the plugin URL; it is never empty |
| Asset.NormalisersRequireId | includes/class-acf-field-canto.php:442-444 | the search and AJAX normalisers refuse exactly the payloads that are not arrays with a non-null `id`, and otherwise both copy that `id` |
| Asset.ThumbnailAlwaysSet | includes/class-acf-canto-ajax.php:357-377 | the AJAX and by-id records always have a non-empty thumbnail; the search record's thumbnail is empty only when the payload has no direct preview and no proxy URL could be built |
| Asset.ThumbnailOrder | includes/class-acf-field-canto.php:507-515 | `directUrlPreview` wins in all three variants; without it, a configured domain gives `canto-thumbnail/<scheme>/<id>` through `home_url`; without a domain, the AJAX and by-id variants fall back to the placeholder |
| Asset.DownloadRule | includes/class-acf-canto-ajax.php:379-388 | the upstream `download` is kept when it is non-empty or there is no domain; otherwise image, video and document get their binary endpoints (image through the JPEG conversion at 72 dpi), and any other scheme gets the empty upstream value |
| Asset.MetadataLifting | includes/class-acf-canto-ajax.php:390-410 | `Dimensions` and `Content Type` of `default`, and `lastUploaded`, are copied as they are, or become "" when absent; a missing `size` gives "" |
| Asset.VariantDifferences | includes/class-acf-field-canto.php:458-471 | only the field-class variants have a filename; the search variant takes the download URL verbatim and leaves dimensions, MIME type and size empty; only the AJAX variant drops a non-array `default` |
| Asset.VariantAgreement | includes/class-acf-field-canto.php:634-647 | for one payload, the three variants agree on scheme, name, preview URL and upload date, the two field variants agree on the filename, and the AJAX and by-id variants agree on dimensions, MIME type and size |
| Asset.UrlKeyAlwaysSet | includes/class-acf-field-canto.php:634-661 | every record the normalisers build has its `url` key set, possibly to "" |
| Asset.SummerJpgExample | includes/class-acf-field-canto.php:719-733 | a payload named `Summer.jpg` with `Content Type: image/jpeg` and no filename alias is an image whose filename is its name |
| Asset.VideoPreviewExample | includes/class-acf-field-canto.php:620-631 | a payload without a scheme whose preview URL contains `/video/` is a video |
| Asset.SearchRecord | includes/class-acf-field-canto.php:440-518 | `format_asset_data_from_search` gives a record iff the payload is an array with an `id`; the record copies that `id`, has the inferred scheme and always has a filename |
| Asset.ByIdRecord | includes/class-acf-field-canto.php:620-739 | the record built by `get_canto_asset_data` carries the requested id, the inferred scheme, a filename and a non-empty thumbnail |
| Asset.AjaxRecord | includes/class-acf-canto-ajax.php:304-413 | `format_asset_data` gives a record iff the payload is an array with an `id`; the record copies that `id`, has the inferred scheme, has no filename and has a non-empty thumbnail |
| Field.FirstMatchIsEarliest | includes/class-acf-field-canto.php:411-419 | one pass finds nothing iff no result matches, and otherwise it returns the normalised record of the earliest matching result |
| Field.TwoPassMatchSpec | includes/class-acf-field-canto.php:411-431 | the earliest result whose filename is identical to the input wins, even over an earlier result whose name matches; only when no filename matches does the earliest name match win; otherwise nothing is found |
| Field.MatchResults | includes/class-acf-field-canto.php:411-431 | the two `foreach` loops with early return compute the two-pass match |
| Field.ByFilenameOutcomes | includes/class-acf-field-canto.php:351-431 | an empty filename gives false; a live cache entry is returned as it is; a missing domain or token gives false; a remote answer is the two-pass match over the response of the filename search URL, a record whose filename or name is the input |
| Field.ByIdOutcomes | includes/class-acf-field-canto.php:577-613 | the image, video and document probes are tried in order and the first accepted payload wins; the result is false iff none is accepted; a found record carries the requested id and a non-empty thumbnail |
| Field.ByFilenameCaching | includes/class-acf-field-canto.php:357-431 | a cache hit makes no request and writes nothing; a miss writes only on a match; for the hour after a successful search, the same filename gets the same record with no request |
| Field.ByIdCaching | includes/class-acf-field-canto.php:556-742 | the same discipline for the id lookup under `canto_asset_<id>` |
| Field.ReturnFormats | includes/class-acf-field-canto.php:307-322 | `id` gives the record's id, `url` gives the `url` field, any other format gives the whole record (for both the search and the by-id record), and no asset gives false |
| Field.ValidateValue | includes/class-acf-field-canto.php:529-537 | an empty value in a required field gives the message "This field is required."; otherwise the incoming status is passed through |
| Field.ParseLegacyValue | includes/class-acf-field-canto.php:331-343 | a string starting with `{` that decodes to an array with a `filename` gives that filename; any other string starting with `{` is returned unchanged; anything not starting with `{` is cast to a string |
| Field.ByFilename | includes/class-acf-field-canto.php:351-432 | `find_asset_by_filename` gives false for an empty filename, and any answer given without a remote search is the live cache entry |
| Field.ById | includes/class-acf-field-canto.php:545-745 | `get_canto_asset_data` gives false for an empty id; without the remote probes an answer is the live cache entry; after the probes it carries the requested id |
| Field.PrepareReturnValue | includes/class-acf-field-canto.php:307-322 | no asset gives false; the `id` format gives the asset's id; a scalar for the `url` format is the asset's `url`; the whole record is returned exactly for a format other than `id` and `url`; the `url` format gives the `url` field when it is set and false when it is null |
| Field.FieldCanto.FindAssetByFilename | includes/class-acf-field-canto.php:351-432 | the method returns the filename lookup's result, requests exactly its URLs and leaves exactly its transient store |
| Field.FieldCanto.GetCantoAssetData | includes/class-acf-field-canto.php:545-745 | the probing loop with `break` returns the id lookup's result, requests the probe URLs up to the first accepted one, and writes the cache only on success |
| Field.FieldCanto.FormatValue | includes/class-acf-field-canto.php:280-298 | an empty stored value gives false and touches nothing; otherwise the result is the return format applied to the filename lookup, with that lookup's requests and cache writes |
| Ajax.FormatAllSound | includes/class-acf-canto-ajax.php:179-186 | nothing is added: every kept asset is the record of some result, and there are at most as many assets as results |
| Ajax.FormatAllComplete | includes/class-acf-canto-ajax.php:179-186 | every result that normalises is kept |
| Ajax.FormatAllKeepsAll | includes/class-acf-canto-ajax.php:179-186 | when every result has an id, the list of assets is as long as the list of results |
| Ajax.FormatAllAppend | includes/class-acf-canto-ajax.php:179-186 | normalising two result lists one after the other gives the concatenation of their outcomes |
| Ajax.FormatResults | includes/class-acf-canto-ajax.php:179-186 | the normalising loop appends the accepted records in API order |
| Ajax.AssetInResults | includes/class-acf-canto-ajax.php:422-430 | the loop with early return is true iff some asset's id is identical to the given id |
| Ajax.SelectedAssetPlacement | includes/class-acf-canto-ajax.php:189-194 | when the selected id is missing, the list is either unchanged or the fetched asset followed by the search results; afterwards the selected id is present iff the fetched asset carries it |
| Ajax.SingleAssetOutcomes | includes/class-acf-canto-ajax.php:243-295 | the probes count only payloads that are accepted and normalise; the result is the earliest such record, false iff there is none, and it always has a thumbnail |
| Ajax.CacheAndConfigurationOrder | includes/class-acf-canto-ajax.php:245-255 | with a live cache entry, the field class answers from the cache whatever the configuration, while the AJAX handler answers false when the token or domain is missing |
| Ajax.SharedAssetCache | includes/class-acf-canto-ajax.php:250-290 | for the hour after the AJAX handler has cached an asset, the field class's id lookup returns that record, which has no `filename`, without a request |
| Ajax.SearchChecksAgreeWithProbes | includes/class-acf-canto-ajax.php:123-169 | the search's response checks accept exactly the responses the probes accept, with the same payload; an empty body is reported as "No response from Canto API" whatever the status |
| Ajax.TreeChecksAgreeWithSearch | includes/class-acf-canto-ajax.php:501-545 | the tree is checked like the search except for non-200 statuses: a 404 with a body gives the single "All Assets" folder, and another status gives the search's message without the body excerpt |
| Ajax.SearchReplyOutcomes | includes/class-acf-canto-ajax.php:35-204 | a failed configuration check is reported as an error; otherwise the reply succeeds iff the response passes its checks, with the normalised results; when the selected asset is missing from them and its fetch succeeds it is put in front, and a failed fetch leaves the results unchanged |
| Ajax.AlbumReplyOutcomes | includes/class-acf-canto-ajax.php:553-688 | with token, album id and domain present, the answer is never an error: it is the first endpoint's results that come as an array, or `[]`; the id `all` answers as the search does |
| Ajax.SingleAsset | includes/class-acf-canto-ajax.php:243-295 | `get_single_asset` gives false when the token or domain is missing; an answer given without probing is the live cache entry |
| Ajax.SearchReply | includes/class-acf-canto-ajax.php:35-204 | `search_assets` answers with a list of assets or an error; the Canto plugin missing and the token missing give their messages |
| Ajax.TreeReply | includes/class-acf-canto-ajax.php:435-548 | `get_tree` answers with data or an error, and a failed configuration check gives its message |
| Ajax.AlbumReply | includes/class-acf-canto-ajax.php:553-688 | `get_album_assets` answers with a list of assets or an error; a missing token and a missing album id give their messages |
| Ajax.AjaxHandler.GetSingleAsset | includes/class-acf-canto-ajax.php:243-295 | the probing loop returns the single-asset lookup, requests its URLs and caches only the first normalised success |
| Ajax.AjaxHandler.SearchAssets | includes/class-acf-canto-ajax.php:35-204 | the handler's reply, requests and cache writes are those of the search specification |
| Ajax.AjaxHandler.GetAsset | includes/class-acf-canto-ajax.php:209-235 | an empty id is the error "Asset ID required" and touches nothing; otherwise the reply is the single-asset lookup, or "Asset not found" |
| Ajax.AjaxHandler.GetTree | includes/class-acf-canto-ajax.php:435-548 | the reply is the tree specification; one request is made exactly when the configuration checks pass, and the cache is untouched |
| Ajax.AjaxHandler.GetAlbumAssets | includes/class-acf-canto-ajax.php:553-688 | the reply is the album specification; `all` makes the search's requests; otherwise the endpoints are requested up to the first usable one, and the cache is untouched |
| Bootstrap.IdLikeNeverSearchesFilename | acf-canto-field.php:63-75 | an id-like identifier contains no dot, so it never reaches the filename search, and its answer is the id lookup's |
| Bootstrap.GetAssetDispatch | acf-canto-field.php:51-76 | an empty identifier, a missing field class, or an identifier neither id-like nor dotted gives false with no request and no write; a dotted non-id identifier gets the filename search; a hit of the id lookup is returned |
| Bootstrap.ShortIdentifierWithoutDot | acf-canto-field.php:63-75 | an identifier of at most ten bytes without a dot always gives false |
| Bootstrap.GetAssetSpec | acf-canto-field.php:51-76 | `acf_canto_get_asset` gives false for an empty identifier or a missing field class, and any answer is the id lookup's or the filename search's |
| Bootstrap.GetAsset | acf-canto-field.php:51-76 | the helper's result, requests and cache writes are those of the dispatch specification |
| Bootstrap.FindAssetByFilename | acf-canto-field.php:35-43 | without the field class the result is false and nothing changes; otherwise it is exactly the field's filename lookup |
| Logging.LevelName | includes/class-acf-canto-logger.php:116-123 | level 1 is named ERROR, 2 WARNING, 3 INFO and 4 DEBUG, and every other level is UNKNOWN |
| Logging.LogLevelFor | includes/class-acf-canto-logger.php:44-57 | the level is 0 without `WP_DEBUG`; with it, `ACF_CANTO_LOG_LEVEL` when defined, else INFO |
| Logging.FormatLineReadsBack | includes/class-acf-canto-logger.php:124-128 | every line starts with `[ACF Canto Field] `; the next character determines the level name; without a context, the line ends in the message itself |
| Logging.FormatLine | includes/class-acf-canto-logger.php:124-128 | a line is the prefix, then the level name and `: `, then the message; with a non-empty context the rest is the `Context:` separator and the encoded context, and with an empty context nothing follows the message |
| Logging.ApiContext | includes/class-acf-canto-logger.php:166-179 | the API-request context always holds the URL and is never empty |
| Logging.ExceptionMessage | includes/class-acf-canto-logger.php:149 | an empty message becomes "Exception occurred", and any other message is kept |
| Logging.LevelFilter | includes/class-acf-canto-logger.php:44-57 | without `WP_DEBUG`, no level and no API trace is enabled; with it and no level constant, exactly levels up to INFO are enabled; with the constant, exactly the levels up to it |
| Logging.Logger.constructor | includes/class-acf-canto-logger.php:34-37 | the level is fixed once, when the logger is built |
| Logging.Logger.CurrentLevel | includes/class-acf-canto-logger.php:200-203 | the current level is the highest enabled level |
| Logging.Logger.Log | includes/class-acf-canto-logger.php:110-131 | exactly one formatted line is written iff the level is enabled |
| Logging.Logger.Error | includes/class-acf-canto-logger.php:65-68 | the line is at ERROR level |
| Logging.Logger.Warning | includes/class-acf-canto-logger.php:76-79 | the line is at WARNING level |
| Logging.Logger.Info | includes/class-acf-canto-logger.php:87-90 | the line is at INFO level |
| Logging.Logger.Debug | includes/class-acf-canto-logger.php:98-101 | the line is at DEBUG level |
| Logging.Logger.Exception | includes/class-acf-canto-logger.php:139-151 | the line is at ERROR level, with the default message and the exception's details as context |
| Logging.Logger.ApiRequest | includes/class-acf-canto-logger.php:160-182 | nothing is written unless the level is at least DEBUG |
| Proxy.RouteRoundTrip | includes/class-acf-canto-thumbnail-proxy.php:42-46 | the rewrite route matches the path `canto-thumbnail/<scheme>/<id>` built by the normalisers and captures that scheme and id |
| Proxy.RouteAcceptsOnlyThumbnailPaths | includes/class-acf-canto-thumbnail-proxy.php:42-46 | everything the route accepts is such a path with two non-empty, slash-free segments, optionally followed by `/` (and, as PCRE `$` allows, a final newline) |
| Proxy.MatchRoute | includes/class-acf-canto-thumbnail-proxy.php:42-46 | an accepted path starts with `canto-thumbnail/` and yields two non-empty segments |
| Proxy.ProxyDecisions | includes/class-acf-canto-thumbnail-proxy.php:52-123 | without the flag, nothing happens; a missing segment gives 400; a missing token or domain gives 404 with no request, whatever the upstream would answer; an upstream failure gives 404; otherwise the body is served with its type (or `image/jpeg`), its exact length and `public, max-age=3600` |
| Proxy.HandleThumbnailRequest | includes/class-acf-canto-thumbnail-proxy.php:52-65 | nothing happens iff the `canto_thumbnail` flag is empty, and every status it sets is 400 or 404 |
| Proxy.ProxyPathIsServed | includes/class-acf-canto-thumbnail-proxy.php:52-83 | a thumbnail path built for a configured site reaches the preview endpoint for its scheme and id, unless a segment is "0", which `empty()` turns into a 400 |

## Left out

- Request headers, timeouts and the User-Agent of the outgoing requests are not modelled. A request is identified by its URL alone.
- The diagnostic `error_log` calls made under `WP_DEBUG` in the field class and the AJAX handler have no effect on results, so they are left out.
- The nonce and capability checks, `wp_die`, and the `wp_send_json_*` output are left out. A handler's answer is a `Reply` value.
- `sanitize_text_field` is taken as already applied: the request fields arrive sanitised.
- `home_url`, `plugin_dir_url`, `size_format`, `md5`, `urlencode`, `json_decode`, `json_encode` and `wp_remote_get` are uninterpreted functions. Hash collisions of `md5` are therefore whatever the function says.
- `get_transient` deleting an expired entry when it reads it is not modelled. An expired entry simply reads as false.
- `Php.Value` keeps a `results` array with keys as `Dict` and iterates only a list-shaped `results`. A payload whose `results` is a keyed array is treated as having no results.
- An array given to a string function is not modelled as an error. In PHP 8 these calls throw a `TypeError`: `strpos` on an array-valued `url.preview` at includes/class-acf-field-canto.php:451, 453, 626 and 628 and includes/class-acf-canto-ajax.php:316 and 318, and `preg_match` or `preg_replace` on an array-valued `name` at includes/class-acf-field-canto.php:486, 491, 721 and 731. Under PHP 7.4 `strpos` returns null with a warning instead. The model applies `Php.StrOf`, which turns an array into "Array", at every one of these call sites.
- Field.ValidateValue: returns the message untranslated; the `__()` lookup of "This field is required." (includes/class-acf-field-canto.php:533) is not modelled.
- Floating-point numbers are left out, and strings are sequences of characters, not bytes.
- Loose comparisons follow PHP 8. The PHP 7 rules for comparing strings and numbers are left out.
- Logging.LogLevelFor: takes `ACF_CANTO_LOG_LEVEL` as an integer, so the `(int)` cast of a non-integer constant is not modelled.
- Rendering of fields and settings, script enqueueing, admin notices, activation and deactivation (including the SQL cleanup of transients), rewrite flushing, `uninstall.php`, `assets/js/input.js` and `examples/usage-examples.php` are user interface or database glue and are left out.
- `ACF_Canto_API` and `ACF_Canto_Asset_Formatter` are not part of this model: their files are loaded by the plugin but are not available.
- `acf_canto_get_asset` calls `get_canto_asset_data`, which the field class declares private. In PHP that call fails; the model keeps only the dispatch that the helper describes.
- The search variant has no placeholder, so its thumbnail is empty when the payload has no direct preview URL and no domain is configured.
- A scheme other than image, video or document leaves the download URL of the AJAX and by-id variants empty, even with a domain configured.
- The clock stands still during one request. The only time that passes is between calls, as a parameter of the caching lemmas.
