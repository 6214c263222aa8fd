/**
 * The `getCookie` cache shared by bilibili.js and musicSearch.js: a
 * module-level `cookie`, filled from the fingerprint endpoint on first use
 * and then reused, and the `cookie` header built from it.
 */
module CookieCache {
  import opened Wrappers
  import opened JsValues

  /** The fingerprint response's `data`; only `b_3` and `b_4` are read. */
  datatype Cookie = Cookie(b3: Val, b4: Val)

  /** The fingerprint request: it failed, or a body arrived whose `data` may be missing. */
  datatype Fetch = FetchFailed | Fetched(data: Option<Cookie>)

  /**
   * One `getCookie` call on the cached value `cached`: the cached value it
   * settles with afterwards, and whether it issued a request. Errors are
   * swallowed; a failed or empty fetch resolves with null.
   */
  function Prime(cached: Option<Cookie>, fetch: Fetch): (r: (Option<Cookie>, bool))
    ensures cached.Some? ==> r == (cached, false)
    ensures cached.None? ==> r.1 && (r.0.Some? <==> fetch.Fetched? && fetch.data.Some?)
    ensures r.0.Some? ==> r.0 == cached || Fetched(r.0) == fetch
  {
    if cached.Some? then (cached, false)
    else match fetch
      case FetchFailed => (None, true)
      case Fetched(data) => (data, true)
  }

  /** The cache after a run of `getCookie` calls whose fetches, if issued, would answer `fetches`. */
  function PrimeAll(cached: Option<Cookie>, fetches: seq<Fetch>): Option<Cookie>
    decreases |fetches|
  {
    if fetches == [] then cached else PrimeAll(Prime(cached, fetches[0]).0, fetches[1..])
  }

  /** How many of those calls issue a request. */
  function RequestsIssued(cached: Option<Cookie>, fetches: seq<Fetch>): nat
    decreases |fetches|
  {
    if fetches == [] then 0
    else
      var (next, asked) := Prime(cached, fetches[0]);
      (if asked then 1 else 0) + RequestsIssued(next, fetches[1..])
  }

  /** Once a cookie is cached it is never replaced, and no further request is made. */
  lemma {:induction false} CachedForever(c: Cookie, fetches: seq<Fetch>)
    ensures PrimeAll(Some(c), fetches) == Some(c)
    ensures RequestsIssued(Some(c), fetches) == 0
    decreases |fetches|
  {
    if fetches != [] {
      CachedForever(c, fetches[1..]);
    }
  }

  /**
   * Calls keep asking until a fetch brings a cookie: with `k` failed or empty
   * fetches before the first good one, exactly `k + 1` requests are issued
   * and the good one's cookie is kept.
   */
  lemma {:induction false} AskUntilCached(fetches: seq<Fetch>, k: nat)
    requires k < |fetches|
    requires forall j :: 0 <= j < k ==> !(fetches[j].Fetched? && fetches[j].data.Some?)
    requires fetches[k].Fetched? && fetches[k].data.Some?
    ensures RequestsIssued(None, fetches) == k + 1
    ensures PrimeAll(None, fetches) == fetches[k].data
    decreases k
  {
    if k == 0 {
      CachedForever(fetches[0].data.value, fetches[1..]);
    } else {
      AskUntilCached(fetches[1..], k - 1);
    }
  }

  /** The `cookie` header value: `buvid3=…;buvid4=…`, or none without a cookie. */
  function CookieHeader(cached: Option<Cookie>): (h: Option<string>)
    ensures h.Some? <==> cached.Some?
    ensures h.Some? ==> |h.value| >= 7 && h.value[..7] == "buvid3="
  {
    match cached
    case None => None
    case Some(c) =>
      var text := "buvid3=" + ToText(c.b3) + ";buvid4=" + ToText(c.b4);
      assert text[..7] == "buvid3=";
      Some(text)
  }

  /** The module-level `cookie` variable. */
  class Jar {
    var cookie: Option<Cookie>

    constructor ()
      ensures cookie == None
    {
      cookie := None;
    }

    /** `getCookie`, its request (if any) answered by `fetch`. */
    method GetCookie(fetch: Fetch) returns (c: Option<Cookie>, requested: bool)
      modifies this
      ensures (cookie, requested) == Prime(old(cookie), fetch)
      ensures c == cookie
    {
      if cookie.Some? {
        return cookie, false;
      }
      requested := true;
      if fetch.Fetched? && fetch.data.Some? {
        cookie := fetch.data;
      }
      c := cookie;
    }
  }
}
