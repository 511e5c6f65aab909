/**
 * The global helpers of the plugin's main file: `acf_canto_get_asset`, which
 * decides by the shape of an identifier whether to look it up as an asset id,
 * as a filename, or not at all, and `acf_canto_find_asset_by_filename`.
 */
module Bootstrap {
  import opened Php
  import opened Wp
  import opened Asset
  import opened Store
  import opened Field

  /** `preg_match('/^[a-zA-Z0-9_-]+$/', $s)`: one or more characters of the
      class, where `$` also matches before one final newline. */
  predicate IdPattern(s: string) {
    || (|s| > 0 && forall k | 0 <= k < |s| :: IsWordChar(s[k]))
    || (|s| > 1 && s[|s| - 1] == '\n' && forall k | 0 <= k < |s| - 1 :: IsWordChar(s[k]))
  }

  /** The id test of `acf_canto_get_asset`: the pattern, and more than ten
      bytes. */
  predicate IsIdLike(s: string) {
    IdPattern(s) && |s| > 10
  }

  /** `strpos($s, '.') !== false` */
  predicate HasDot(s: string) {
    Contains(s, ".")
  }

  /** `acf_canto_get_asset($identifier)`: the id lookup for an id-like
      identifier, then the filename search for one containing a dot. */
  function GetAssetSpec(env: Env, net: Net, store: map<string, Entry<Asset>>, now: int, fieldLoaded: bool, identifier: string): (r: Option<Asset>)
    ensures EmptyStr(identifier) || !fieldLoaded ==> r.None?
    ensures r.Some? ==> r == ById(env, net, store, now, identifier) || r == ByFilename(env, net, store, now, identifier)
  {
    if EmptyStr(identifier) || !fieldLoaded then None
    else if IsIdLike(identifier) && ById(env, net, store, now, identifier).Some? then ById(env, net, store, now, identifier)
    else if HasDot(identifier) then ByFilename(env, net, store, now, identifier)
    else None
  }

  /** The id lookup runs; a failed id lookup writes nothing. */
  predicate TriesId(fieldLoaded: bool, identifier: string) {
    !EmptyStr(identifier) && fieldLoaded && IsIdLike(identifier)
  }

  /** The filename search runs. */
  predicate TriesFilename(env: Env, net: Net, store: map<string, Entry<Asset>>, now: int, fieldLoaded: bool, identifier: string) {
    !EmptyStr(identifier) && fieldLoaded && HasDot(identifier)
    && !(IsIdLike(identifier) && ById(env, net, store, now, identifier).Some?)
  }

  function GetAssetRequests(env: Env, net: Net, store: map<string, Entry<Asset>>, now: int, fieldLoaded: bool, identifier: string): seq<string> {
    (if TriesId(fieldLoaded, identifier) then ByIdRequests(env, net, store, now, identifier) else [])
    + (if TriesFilename(env, net, store, now, fieldLoaded, identifier) then ByFilenameRequests(env, net, store, now, identifier) else [])
  }

  function GetAssetStore(env: Env, net: Net, store: map<string, Entry<Asset>>, now: int, fieldLoaded: bool, identifier: string): map<string, Entry<Asset>> {
    if TriesId(fieldLoaded, identifier) && ById(env, net, store, now, identifier).Some? then ByIdStore(env, net, store, now, identifier)
    else if TriesFilename(env, net, store, now, fieldLoaded, identifier) then ByFilenameStore(env, net, store, now, identifier)
    else store
  }

  /** An id-like identifier has no dot, so it never reaches the filename
      search: its answer is the id lookup's. */
  lemma {:induction false} IdLikeNeverSearchesFilename(env: Env, net: Net, store: map<string, Entry<Asset>>, now: int, identifier: string)
    requires IsIdLike(identifier)
    ensures !HasDot(identifier)
    ensures !TriesFilename(env, net, store, now, true, identifier)
    ensures GetAssetSpec(env, net, store, now, true, identifier) == ById(env, net, store, now, identifier)
  {
    forall i: nat | i <= |identifier| ensures !OccursAt(identifier, ".", i) {
      if i + 1 <= |identifier| {
        assert identifier[i..i + 1][0] == identifier[i];
      }
    }
  }

  /** An identifier that is neither id-like nor dotted, an empty one, and any
      identifier when the field class is missing, yield false without a
      request; a dotted identifier that is not id-like is exactly the
      filename search. */
  lemma GetAssetDispatch(env: Env, net: Net, store: map<string, Entry<Asset>>, now: int, fieldLoaded: bool, identifier: string)
    ensures EmptyStr(identifier) || !fieldLoaded || (!IsIdLike(identifier) && !HasDot(identifier)) ==>
              GetAssetSpec(env, net, store, now, fieldLoaded, identifier).None?
              && GetAssetRequests(env, net, store, now, fieldLoaded, identifier) == []
              && GetAssetStore(env, net, store, now, fieldLoaded, identifier) == store
    ensures fieldLoaded && !EmptyStr(identifier) && !IsIdLike(identifier) && HasDot(identifier) ==>
              GetAssetSpec(env, net, store, now, fieldLoaded, identifier) == ByFilename(env, net, store, now, identifier)
    ensures fieldLoaded && IsIdLike(identifier) && ById(env, net, store, now, identifier).Some? ==>
              GetAssetSpec(env, net, store, now, fieldLoaded, identifier) == ById(env, net, store, now, identifier)
  {
  }

  /** A short identifier (ten bytes or fewer) without a dot always yields
      false. */
  lemma ShortIdentifierWithoutDot(env: Env, net: Net, store: map<string, Entry<Asset>>, now: int, fieldLoaded: bool, identifier: string)
    requires |identifier| <= 10 && !HasDot(identifier)
    ensures GetAssetSpec(env, net, store, now, fieldLoaded, identifier).None?
  {
  }

  /** `acf_canto_get_asset($identifier)` on a fresh field instance. */
  method GetAsset(site: Site, fieldLoaded: bool, identifier: string) returns (r: Option<Asset>)
    modifies site
    ensures r == old(GetAssetSpec(site.env, site.net, site.transients, site.now, fieldLoaded, identifier))
    ensures site.requests == old(site.requests) + old(GetAssetRequests(site.env, site.net, site.transients, site.now, fieldLoaded, identifier))
    ensures site.transients == old(GetAssetStore(site.env, site.net, site.transients, site.now, fieldLoaded, identifier))
    ensures site.now == old(site.now)
  {
    if EmptyStr(identifier) || !fieldLoaded {
      return None;
    }
    var field := new FieldCanto(site);
    if IsIdLike(identifier) {
      var byId := field.GetCantoAssetData(identifier);
      if byId.Some? {
        return byId;
      }
    }
    if HasDot(identifier) {
      r := field.FindAssetByFilename(identifier);
      return;
    }
    return None;
  }

  /** `acf_canto_find_asset_by_filename($filename)` */
  method FindAssetByFilename(site: Site, fieldLoaded: bool, filename: string) returns (r: Option<Asset>)
    modifies site
    ensures r == if fieldLoaded then old(ByFilename(site.env, site.net, site.transients, site.now, filename)) else None
    ensures !fieldLoaded ==> unchanged(site)
    ensures fieldLoaded ==>
              && site.requests == old(site.requests) + old(ByFilenameRequests(site.env, site.net, site.transients, site.now, filename))
              && site.transients == old(ByFilenameStore(site.env, site.net, site.transients, site.now, filename))
              && site.now == old(site.now)
  {
    if !fieldLoaded {
      return None;
    }
    var field := new FieldCanto(site);
    r := field.FindAssetByFilename(filename);
  }
}
