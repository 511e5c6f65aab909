/**
 * The WordPress installation as the resolvers see it: the options and
 * helper functions (fixed for a request), the transient store (shared by the
 * field class and the AJAX handler), the clock, and a log of the URLs
 * requested from the Canto API.
 */
module Store {
  import opened Php
  import opened Wp
  import opened Asset

  class Site {
    const env: Env
    const net: Net
    var transients: map<string, Entry<Asset>>
    var now: int
    /** Every URL passed to `wp_remote_get`, in order. */
    ghost var requests: seq<string>

    constructor (env: Env, net: Net, transients: map<string, Entry<Asset>>, now: int)
      ensures this.env == env && this.net == net
      ensures this.transients == transients && this.now == now && requests == []
    {
      this.env := env;
      this.net := net;
      this.transients := transients;
      this.now := now;
      requests := [];
    }

    /** What `get_transient($key)` returns now. */
    function Cached(key: string): Option<Asset>
      reads this
    {
      Lookup(transients, key, now)
    }

    method GetTransient(key: string) returns (r: Option<Asset>)
      ensures r == Cached(key)
    {
      if key in transients && now <= transients[key].expiry {
        r := Some(transients[key].value);
      } else {
        r := None;
      }
    }

    /** `set_transient($key, $value, HOUR_IN_SECONDS)` */
    method SetTransient(key: string, value: Asset)
      modifies this
      ensures transients == Put(old(transients), key, value, now)
      ensures Lookup(transients, key, now) == Some(value)
      ensures now == old(now) && requests == old(requests)
    {
      transients := transients[key := Entry(value, now + HourInSeconds)];
    }

    /** `wp_remote_get($url, ...)`: the answer comes from the oracle, and
        the request is logged. */
    method RemoteGet(url: string) returns (resp: Response)
      modifies this
      ensures resp == net.remote(url)
      ensures requests == old(requests) + [url]
      ensures transients == old(transients) && now == old(now)
    {
      resp := net.remote(url);
      requests := requests + [url];
    }
  }
}
