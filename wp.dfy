/**
 * The WordPress services the plugin calls: the three Canto options, the
 * transient cache, and `wp_remote_get`. The options become an explicit
 * configuration value, the HTTP client and `json_decode` become oracles, and
 * the transient store is a map from key to value and expiry time read against
 * an explicit clock.
 */
module Wp {
  import opened Php

  /** `HOUR_IN_SECONDS`, the lifetime of every transient the plugin writes. */
  const HourInSeconds: int := 3600

  /** The API host suffix used when the `fbc_app_api` option is unset. */
  const DefaultAppApi: string := "canto.com"

  /** The options `fbc_flight_domain`, `fbc_app_api` and `fbc_app_token`; an
      unset option reads as "". */
  datatype Config = Config(domain: string, appApi: string, token: string) {

    /** `if ($domain)` */
    predicate HasDomain() {
      !EmptyStr(domain)
    }

    /** `if ($token)` */
    predicate HasToken() {
      !EmptyStr(token)
    }

    /** `get_option('fbc_app_api') ?: 'canto.com'` */
    function ApiHost(): (h: string)
      ensures !EmptyStr(h)
      ensures !EmptyStr(appApi) ==> h == appApi
      ensures EmptyStr(appApi) ==> h == DefaultAppApi
    {
      if EmptyStr(appApi) then DefaultAppApi else appApi
    }

    /** `'https://' . $domain . '.' . $app_api` */
    function Origin(): string {
      "https://" + domain + "." + ApiHost()
    }
  }

  /** What `wp_remote_get` yields: a `WP_Error` or an HTTP response with its
      status code, body and `content-type` header ("" when absent). */
  datatype Response =
    | Transport(message: string)
    | Http(code: int, body: string, contentType: string)

  /** Calls into code outside the plugin, as uninterpreted functions. */
  datatype Net = Net(
    remote: string -> Response,
    decode: string -> Value,
    md5: string -> string,
    urlencode: string -> string)

  /** The first-success test shared by every endpoint probe of the plugin: a
      200 response with a non-empty body whose decoded value is truthy and
      carries no `error` key. */
  function AcceptPayload(decode: string -> Value, resp: Response): (r: Option<Value>)
    ensures r.Some? <==> resp.Http? && resp.code == 200 && !EmptyStr(resp.body)
                         && Truthy(decode(resp.body)) && Get(decode(resp.body), "error").None?
    ensures r.Some? ==> r.value == decode(resp.body)
  {
    if resp.Transport? then None
    else if resp.code == 200 && !EmptyStr(resp.body) then
      var data := decode(resp.body);
      if Truthy(data) && Get(data, "error").None? then Some(data) else None
    else None
  }

  // ---------------------------------------------------------------------
  // First-success probing across an ordered list of endpoints
  // ---------------------------------------------------------------------

  /** The outcome of the first endpoint that succeeded. */
  function FirstHit<T>(hits: seq<Option<T>>): Option<T> {
    if hits == [] then None
    else if hits[0].Some? then hits[0]
    else FirstHit(hits[1..])
  }

  /** How many endpoints a first-success probe requests: all of them up to
      and including the first success. */
  function Probed<T>(hits: seq<Option<T>>): (n: nat)
    ensures n <= |hits|
  {
    if hits == [] then 0
    else if hits[0].Some? then 1
    else 1 + Probed(hits[1..])
  }

  lemma {:induction false} FirstHitAt<T>(hits: seq<Option<T>>, k: nat)
    requires k < |hits| && hits[k].Some?
    requires forall j | 0 <= j < k :: hits[j].None?
    ensures FirstHit(hits) == hits[k] && Probed(hits) == k + 1
  {
    if k > 0 {
      FirstHitAt(hits[1..], k - 1);
    }
  }

  lemma {:induction false} NoHit<T>(hits: seq<Option<T>>)
    requires forall j | 0 <= j < |hits| :: hits[j].None?
    ensures FirstHit(hits) == None && Probed(hits) == |hits|
  {
    if hits != [] {
      NoHit(hits[1..]);
    }
  }

  /** A probe succeeds exactly when some endpoint does, and then with the
      outcome of the earliest one. */
  lemma {:induction false} FirstHitIsEarliest<T>(hits: seq<Option<T>>)
    ensures FirstHit(hits).Some? <==> exists k | 0 <= k < |hits| :: hits[k].Some?
    ensures FirstHit(hits).Some? ==>
              var k := Probed(hits) - 1;
              0 <= k < |hits| && hits[k] == FirstHit(hits)
              && forall j | 0 <= j < k :: hits[j].None?
  {
    if hits != [] {
      FirstHitIsEarliest(hits[1..]);
      if hits[0].None? && FirstHit(hits[1..]).Some? {
        var k := Probed(hits[1..]) - 1;
        forall j | 0 <= j < k + 1 ensures hits[j].None? {
          if j > 0 { assert hits[j] == hits[1..][j - 1]; }
        }
      }
      if exists k | 0 <= k < |hits| :: hits[k].Some? {
        var k :| 0 <= k < |hits| && hits[k].Some?;
        if k > 0 { assert hits[1..][k - 1].Some?; }
      }
    }
  }

  // ---------------------------------------------------------------------
  // The transient store
  // ---------------------------------------------------------------------

  datatype Entry<T> = Entry(value: T, expiry: int)

  /** `get_transient($key)`: a stored value is returned until its expiry time
      has passed; a missing or expired entry reads as absent. */
  function Lookup<T>(store: map<string, Entry<T>>, key: string, now: int): Option<T> {
    if key in store && now <= store[key].expiry then Some(store[key].value) else None
  }

  /** `set_transient($key, $value, HOUR_IN_SECONDS)` at time `now`. */
  function Put<T>(store: map<string, Entry<T>>, key: string, value: T, now: int): map<string, Entry<T>> {
    store[key := Entry(value, now + HourInSeconds)]
  }

  /** A written transient is read back for one hour and is absent after
      that; no other key is affected. */
  lemma TransientLifetime<T>(store: map<string, Entry<T>>, key: string, value: T, now: int, later: int, other: string)
    requires now <= later && other != key
    ensures Lookup(Put(store, key, value, now), key, later)
            == if later <= now + HourInSeconds then Some(value) else None
    ensures Lookup(Put(store, key, value, now), other, later) == Lookup(store, other, later)
  {
  }
}
