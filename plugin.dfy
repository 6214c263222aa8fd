/**
 * bilibili.js as a custom source: `handleSearchMusic` (the response check,
 * the item mapping and the page it resolves with) and the `request` event
 * handler that dispatches the `searchMusic` and `musicUrl` actions.
 */
module Plugin {
  import opened Wrappers
  import opened JsValues
  import opened Normalise
  import opened Responses
  import opened CookieCache
  import opened PlayUrl
  import SdkSearch

  /** What `handleSearchMusic` resolves with. */
  datatype PluginPage = PluginPage(list: seq<Track>, total: nat, page: Val, limit: nat)

  const DefaultLimit := 20

  /** `limit || 20`, for a limit given as a number (0 when absent). */
  function PageSize(limit: nat): (r: nat)
    ensures r > 0
    ensures limit > 0 ==> r == limit
  {
    if limit != 0 then limit else DefaultLimit
  }

  /** The items of an answer bilibili.js accepts: `data.result` is an array. */
  predicate HasArray(a: Attempt) {
    a.Reply? && a.body.Json? && a.body.data.Some? && a.body.data.value.result.Items?
  }

  /**
   * The part of `handleSearchMusic` after the request: `data` and
   * `data.result` must be present, `result.map` needs an array, and the page
   * carries `numResults || list.length`, the page asked for and the page size.
   * `noise(i)` stands for the i-th item's `Math.random()`.
   */
  function SearchPage(a: Attempt, page: Val, limit: nat, noise: nat -> string): (r: Result<PluginPage, SearchError>)
    ensures r.Success? <==> HasArray(a)
    ensures a.Refused? ==> r == Failure(Transport(a.reason))
    ensures a.Reply? && (a.body.Unparseable? || a.body.data.None? || a.body.data.value.result.Missing?) ==>
              r == Failure(NoData)
    ensures a.Reply? && a.body.Json? && a.body.data.Some? && a.body.data.value.result.Record? ==>
              r == Failure(NotAnArray)
    ensures r.Success? ==>
      var d := a.body.data.value;
      && |r.value.list| == |d.result.items|
      && (forall i :: 0 <= i < |d.result.items| ==> r.value.list[i] == PluginTrack(d.result.items[i], noise(i)))
      && r.value.total == (if d.numResults != 0 then d.numResults else |d.result.items|)
      && r.value.page == page && r.value.limit == PageSize(limit)
  {
    match a
    case Refused(reason) => Failure(Transport(reason))
    case Reply(Unparseable) => Failure(NoData)
    case Reply(Json(_, _, data)) =>
      if data.None? || data.value.result.Missing? then Failure(NoData)
      else if data.value.result.Record? then Failure(NotAnArray)
      else
        var items := data.value.result.items;
        var list := seq(|items|, i requires 0 <= i < |items| => PluginTrack(items[i], noise(i)));
        Success(PluginPage(list, if data.value.numResults != 0 then data.value.numResults else |list|, page, PageSize(limit)))
  }

  /**
   * bilibili.js reads no `code`: an answer with an error code and an item
   * array is a page to it, while musicSearch.js rejects the same answer.
   */
  lemma CodeIgnored(code: int, message: Option<string>, items: seq<RawItem>, numResults: nat, pageField: Val,
                    page: Val, limit: nat, noise: nat -> string)
    requires code != 0
    ensures var a := Reply(Json(Some(code), message, Some(SearchData(Items(items), numResults, pageField))));
      SearchPage(a, page, limit, noise).Success? && SdkSearch.MusicSearch(a).Failure?
  {
  }

  /**
   * The records bilibili.js and musicSearch.js build from one answer agree
   * in everything but the rendering of the length.
   */
  lemma AdaptersAgree(a: Attempt, page: Val, limit: nat, noise: nat -> string, formatPlayTime: nat -> string)
    requires SearchPage(a, page, limit, noise).Success? && SdkSearch.MusicSearch(a).Success?
    ensures var p := SearchPage(a, page, limit, noise).value;
      var q := SdkSearch.HandleResult(Some(SdkSearch.MusicSearch(a).value.result), noise, formatPlayTime);
      && |p.list| == |q|
      && forall i :: 0 <= i < |q| ==> p.list[i] == q[i].(interval := p.list[i].interval)
  {
    var p := SearchPage(a, page, limit, noise).value;
    var q := SdkSearch.HandleResult(Some(SdkSearch.MusicSearch(a).value.result), noise, formatPlayTime);
    forall i | 0 <= i < |q|
      ensures p.list[i] == q[i].(interval := p.list[i].interval)
    {
      SdkTrackFields(a.body.data.value.result.items[i], noise(i), formatPlayTime);
    }
  }

  /**
   * `handleSearchMusic(keyword, page, limit)`: prime the cookie cache (its
   * request answered by `fetch`), send the search request with the `cookie`
   * header when there is a cookie (returned as `header`), and check the answer `a`.
   */
  method HandleSearchMusic(jar: Jar, fetch: Fetch, a: Attempt, page: Val, limit: nat, noise: nat -> string)
    returns (r: Result<PluginPage, SearchError>, header: Option<string>)
    modifies jar
    ensures jar.cookie == Prime(old(jar.cookie), fetch).0
    ensures header == CookieHeader(jar.cookie)
    ensures r == SearchPage(a, page, limit, noise)
  {
    var _, _ := jar.GetCookie(fetch);
    header := CookieHeader(jar.cookie);
    r := SearchPage(a, page, limit, noise);
  }

  /** The `request` event's payload, by action. */
  datatype Action =
    | SearchMusic(keyword: string, page: Val, limit: nat)   // `info.page`, `info.limit` (0 when absent)
    | MusicUrl(kind: string, meta: SongMeta)                // `info.type`, `info.musicInfo.meta`
    | Unsupported(name: string)

  datatype Answer = Page(page: PluginPage) | Url(url: Val)

  const ActionNotSupported := "action not support"

  /**
   * The `request` handler: `searchMusic` with `page || 1` and `limit || 20`,
   * `musicUrl` with the play-URL resolution (the bare URL, not `{type, url}`),
   * and a rejection for any other action. Errors are given by their message.
   */
  method Dispatch(jar: Jar, action: Action, fetch: Fetch, searchAnswer: Attempt,
                  view: Reply<ViewData>, play: Reply<PlayData>, noise: nat -> string)
    returns (r: Result<Answer, string>)
    modifies jar
    ensures action.SearchMusic? ==>
      var p := SearchPage(searchAnswer, Or(action.page, Num(1)), PageSize(action.limit), noise);
      && r == (if p.Success? then Success(Page(p.value)) else Failure(Message(p.error)))
      && jar.cookie == Prime(old(jar.cookie), fetch).0
    ensures action.MusicUrl? ==>
      var u := Resolve(action.meta, view, play).result;
      && r == (if u.Success? then Success(Url(u.value)) else Failure(u.error))
      && jar.cookie == old(jar.cookie)
    ensures action.Unsupported? ==> r == Failure(ActionNotSupported) && jar.cookie == old(jar.cookie)
  {
    match action
    case SearchMusic(_, page, limit) =>
      var p, _ := HandleSearchMusic(jar, fetch, searchAnswer, Or(page, Num(1)), PageSize(limit), noise);
      r := if p.Success? then Success(Page(p.value)) else Failure(Message(p.error));
    case MusicUrl(_, meta) =>
      var u := Resolve(meta, view, play).result;
      r := if u.Success? then Success(Url(u.value)) else Failure(u.error);
    case Unsupported(_) =>
      r := Failure(ActionNotSupported);
  }

  /**
   * A dispatched search page always has a positive limit: the caller's when
   * it gives one, else 20, and the page asked for is never falsy.
   */
  lemma DispatchDefaults(keyword: string, page: Val, limit: nat, a: Attempt, noise: nat -> string)
    requires SearchPage(a, Or(page, Num(1)), PageSize(limit), noise).Success?
    ensures var p := SearchPage(a, Or(page, Num(1)), PageSize(limit), noise).value;
      && p.limit == (if limit > 0 then limit else DefaultLimit)
      && Truthy(p.page)
      && (Truthy(page) ==> p.page == page)
  {
  }
}
