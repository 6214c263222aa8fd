# Bilibili search and playback in the LX Music mobile client: a Dafny model

This project models the part of the LX Music mobile client that searches
Bilibili and resolves its play URLs, and the search layer that coordinates
the sources:

- **bilibili.js**, the custom-source script. `handleSearchMusic` checks the
  search API's answer and maps each item to a track. `handleGetMusicUrl`
  resolves a play URL. The `request` event handler dispatches the
  `searchMusic` and `musicUrl` actions. The module-level cookie cache sits in
  front of both.
- **src/utils/musicSdk/bi/musicSearch.js**, the built-in adapter. Its
  `musicSearch` validates the answer (JSON parse, `code`, `data`, `result`,
  the `vlist` fallback). `handleResult` maps the items. The retrying `search`
  keeps `total`, `page` and `allPage` on the adapter object.
- **src/utils/musicSdk/bi/index.js**: `getMusicUrl` (the id check, the `cid`
  lookup, the DASH-then-`durl` choice), its `{type, url}` wrapper and
  `getMusicDetailPageUrl`.
- **src/core/search/music.ts** has two parts.
  - `searchMusicFromUserApi` is a request correlated with its answer by a
    random `requestKey`. It settles exactly once, through the first matching
    response or the 20-second timeout.
  - `search` stores the `page__text` key before any request, so that results
    arriving after a newer query started are dropped. It fans the `all` scope
    out over every source, replaces failed sources by empty pages, and clears
    a first page whose search failed.
- **src/store/search/music/state.ts**, the store's initial state.

## Modules

- **Values**: `Wrappers` (`Option`, `Result`) and `JsValues`. `JsValues`
  covers JavaScript truthiness, `||`, `??` and the decimal text of numbers.
- **`Duration`**: the `m:ss` conversions, with round-trip lemmas.
- **`Normalise`**: raw item to track, including the `<em>` highlight
  stripping as the regular expression's scan performs it.
- **`Responses`**: the answer shapes and error messages.
- **`SdkSearch`**: musicSearch.js.
  - `MusicSearch`, `HandleResult` and the retry recursion are the spec
    functions `SearchRun` and `RetryAfterEmpty`.
  - The class `BiSearch` holds the adapter's fields. Its `Search` method is
    proved against `SearchRun`.
- **`CookieCache`**: `getCookie`, with the class `Jar` for the cached cookie.
- **`PlayUrl`**: index.js, and the same decisions in bilibili.js.
- **`Plugin`**: `handleSearchMusic` and the dispatcher of bilibili.js.
- **`SearchStore`**: state.ts, with the class `SearchState`. Its constructor
  runs the registration loop and is proved against `InitialStore`.
- **`UserApiSearch`**: the correlator of music.ts. The spec function `Next`
  is over events, and the class `PendingSearch` holds the flags.
- **`Coordinator`**: `search` of music.ts, split at its `await`.
  - `StartOn` is the start and `CompleteSingle`/`CompleteAll` are the
    completions, all over a snapshot of the store.
  - The methods `Start`, `FinishSingle` and `FinishAll` update a
    `SearchState` object.

## Retry behaviour

What musicSearch.js `search` does on a failed or empty answer, proved as
written:

- **Failures are retried.** The `.catch` of `search` retries a failed request
  while the counter is below 3 and rejects with the last error after that
  (musicSearch.js:228-233). `SdkSearch.AllFail` proves that an always-failing
  backend is asked 3 times.
- **An all-empty run makes 3 requests.** The counter is incremented before it
  is compared (musicSearch.js:198), and the empty-page retry stops at 3
  (musicSearch.js:204). `SdkSearch.AllEmpty` proves this.

- **A fresh `search` can make up to 7 requests.** A retry started from an
  empty page sits inside the `.then`, and that `.then`'s promise has the
  `.catch` attached. So a rejected retry is retried once more at the same
  counter. `SdkSearch.SearchRun` states the bound in its contract, and
  `SdkSearch.SevenRequests` shows it is reached.
- **A superseded failure can clear a newer query's results.** The failure
  branch of a single-source search has no staleness check. A first-page
  failure of a superseded query therefore clears the scope, even though a
  newer query owns it (`Coordinator.StaleFailureClears`).

## Model

| member | source | states |
|---|---|---|
| Duration.SplitColon | Desktop/lx-b/lx-netease-music-mobile-main/bilibili.js:68 | `split(":")` gives at least one part, no part contains ':', and the parts of a duration text are digit strings |
| Duration.JoinSplit | Desktop/lx-b/lx-netease-music-mobile-main/bilibili.js:68 | joining the parts of `split(":")` with ':' gives the text back |
| Duration.SplitJoin | Desktop/lx-b/lx-netease-music-mobile-main/bilibili.js:68 | splitting colon-free parts joined by ':' gives the parts back |
| Duration.Pad2 | Desktop/lx-b/lx-netease-music-mobile-main/bilibili.js:79 | `padStart(2, "0")` fills a 0- or 1-character text to 2 characters with leading '0's, keeping the text as the suffix, and leaves longer text alone |
| Duration.Clock | Desktop/lx-b/lx-netease-music-mobile-main/bilibili.js:77-79 | the rendering of n seconds has the `m:ss` form. The part before ':' reads as n / 60 and has no leading zero. The two digits after it read as n % 60 |
| Duration.SecToDuration | Desktop/lx-b/lx-netease-music-mobile-main/bilibili.js:75-80 | bilibili.js `secToDuration` yields text exactly for a number. That text has the `m:ss` form, its minutes read as n / 60 and its seconds as n % 60 |
| Duration.SdkSecToDuration | Desktop/lx-b/lx-netease-music-mobile-main/src/utils/musicSdk/bi/musicSearch.js:5-20 | musicSearch.js `secToDuration`: a number goes through `formatPlayTime`, and `m:ss` text is returned as it is. Other text with two or more parts is folded base 60 and goes through `formatPlayTime`. Text with fewer parts, or no value, gives null |
| Duration.ClockRoundTrip | Desktop/lx-b/lx-netease-music-mobile-main/bilibili.js:63-80 | `durationToSec` of the clock text of n seconds is n |
| Duration.SecToDurationRoundTrip | Desktop/lx-b/lx-netease-music-mobile-main/bilibili.js:63-80 | `durationToSec(secToDuration(n)) == n` for every natural n |
| Duration.SdkKeepsClockText | Desktop/lx-b/lx-netease-music-mobile-main/src/utils/musicSdk/bi/musicSearch.js:9 | every clock text is returned unchanged by musicSearch.js's variant |
| Duration.FoldTwo | Desktop/lx-b/lx-netease-music-mobile-main/bilibili.js:69 | "m:ss" folds to 60·m + ss |
| Duration.FoldThree | Desktop/lx-b/lx-netease-music-mobile-main/bilibili.js:69 | "h:mm:ss" folds to 3600·h + 60·mm + ss |
| Duration.MinutesExample | Desktop/lx-b/lx-netease-music-mobile-main/bilibili.js:63-72 | "3:25" is a duration text worth 205 seconds |
| Duration.HoursExample | Desktop/lx-b/lx-netease-music-mobile-main/bilibili.js:63-72 | "1:02:03" is a duration text worth 3723 seconds |
| Normalise.TagLength | Desktop/lx-b/lx-netease-music-mobile-main/bilibili.js:127 | what is removed at the front of a title is a highlight tag: `</em>`, or `<em` up to the first '>' on the same line |
| Normalise.LexLossless | Desktop/lx-b/lx-netease-music-mobile-main/bilibili.js:127 | the global replace's scan loses nothing: its pieces rebuild the title, and every piece dropped is a highlight tag |
| Normalise.LexScans | Desktop/lx-b/lx-netease-music-mobile-main/bilibili.js:127 | the scan misses no tag: at the offset where each piece starts, a kept character is one where no tag matches, and a dropped piece is the whole tag that matches there |
| Normalise.StripShortens | Desktop/lx-b/lx-netease-music-mobile-main/bilibili.js:127 | removing the tags never lengthens a title |
| Normalise.TitleOf | Desktop/lx-b/lx-netease-music-mobile-main/bilibili.js:127 | a missing title gives "", and a present one its highlight-stripped text |
| Normalise.StripPlain | Desktop/lx-b/lx-netease-music-mobile-main/bilibili.js:127 | a title without '<' is unchanged |
| Normalise.StripDropsTag | Desktop/lx-b/lx-netease-music-mobile-main/bilibili.js:127 | a tag at the front is removed whole, whatever follows |
| Normalise.StripHighlightedWord | Desktop/lx-b/lx-netease-music-mobile-main/src/utils/musicSdk/bi/musicSearch.js:170 | `<em …>word</em>rest` becomes `wordrest` |
| Normalise.Artwork | Desktop/lx-b/lx-netease-music-mobile-main/bilibili.js:139 | the cover is `http:`-prefixed for a protocol-relative URL, null for a missing or empty one, otherwise the URL itself |
| Normalise.Singer | Desktop/lx-b/lx-netease-music-mobile-main/bilibili.js:133 | author, else the owner's name, else "未知UP主"; never falsy |
| Normalise.ItemId | Desktop/lx-b/lx-netease-music-mobile-main/bilibili.js:131 | bvid, else aid, else `bi_` + cid; never falsy |
| Normalise.SongId | Desktop/lx-b/lx-netease-music-mobile-main/bilibili.js:137-138 | bvid, else aid, else ""; falsy exactly when both ids are |
| Normalise.ItemTrack | Desktop/lx-b/lx-netease-music-mobile-main/bilibili.js:130-146 | every track has source "bi", the single 128k quality, and the item's bvid, aid and cid in its meta |
| Normalise.PluginTrackFields | Desktop/lx-b/lx-netease-music-mobile-main/bilibili.js:126-147 | a bilibili.js track carries each computed field, and its interval reads back as the item's length in seconds |
| Normalise.SdkTrackFields | Desktop/lx-b/lx-netease-music-mobile-main/src/utils/musicSdk/bi/musicSearch.js:169-194 | a musicSearch.js track equals bilibili.js's but for the interval, which is `formatPlayTime` of the length; its `songmid` is modelled as `Track.id`, and its `types`, `_types`, `typeUrl` and `img` are not modelled |
| SdkSearch.MusicSearch | Desktop/lx-b/lx-netease-music-mobile-main/src/utils/musicSdk/bi/musicSearch.js:119-159 | resolves exactly for JSON with no or zero `code` and an item array in `result` or `result.vlist`, carrying that array and `numResults \|\| length`; transport, parse and code failures reject with their own errors |
| SdkSearch.CheckOrder | Desktop/lx-b/lx-netease-music-mobile-main/src/utils/musicSdk/bi/musicSearch.js:135-153 | with an acceptable code: a missing `data`, a missing `result` and a non-array `vlist` each give their own error, and an array `vlist` is used |
| SdkSearch.HandleResult | Desktop/lx-b/lx-netease-music-mobile-main/src/utils/musicSdk/bi/musicSearch.js:166-195 | `[]` for a non-array, else one track per item in order, each with source "bi" and the 128k quality |
| Responses.CeilDivBounds | Desktop/lx-b/lx-netease-music-mobile-main/src/utils/musicSdk/bi/musicSearch.js:218 | `Math.ceil(n / d)`: the least r with r·d ≥ n |
| SdkSearch.ClassifyMeaning | Desktop/lx-b/lx-netease-music-mobile-main/src/utils/musicSdk/bi/musicSearch.js:200-203 | a request is an error exactly when `musicSearch` rejects and empty exactly when it has no items; otherwise it gives the mapped list and its total |
| SdkSearch.SearchRun | Desktop/lx-b/lx-netease-music-mobile-main/src/utils/musicSdk/bi/musicSearch.js:197-235 | `total`, `page` and `allPage` are written exactly when a non-empty page is returned, with that page's values, and every page carries the adapter's limit and source "bi"; a call issues at least one request while its counter is below 3, none once it is spent, and at most 7 from a fresh call (3 and 1 from counters 1 and 2) |
| SdkSearch.RetryAfterEmpty | Desktop/lx-b/lx-netease-music-mobile-main/src/utils/musicSdk/bi/musicSearch.js:203-205 | the retry after an empty page writes fields only with a non-empty page, as above, and issues between 2 and 1 + 2·(budget of its counter) requests, the empty one included |
| SdkSearch.TryMaxWithoutRequest | Desktop/lx-b/lx-netease-music-mobile-main/src/utils/musicSdk/bi/musicSearch.js:198 | with the counter spent the call rejects with "try max num" and issues no request |
| SdkSearch.AllEmpty | Desktop/lx-b/lx-netease-music-mobile-main/src/utils/musicSdk/bi/musicSearch.js:203-214 | when every answer is empty, 3 − retryNum requests are issued and the empty page with the adapter's limit is returned |
| SdkSearch.AllFail | Desktop/lx-b/lx-netease-music-mobile-main/src/utils/musicSdk/bi/musicSearch.js:228-233 | when every request fails, 3 − retryNum requests are issued and the last error is passed on |
| SdkSearch.ThirdTimeLucky | Desktop/lx-b/lx-netease-music-mobile-main/src/utils/musicSdk/bi/musicSearch.js:200-226 | two empty answers and then items: three requests, and the third answer's tracks are returned |
| SdkSearch.SevenRequests | Desktop/lx-b/lx-netease-music-mobile-main/src/utils/musicSdk/bi/musicSearch.js:197-235 | a concrete run of empty and failed answers in which a fresh call issues seven requests |
| SdkSearch.BiSearch.constructor | Desktop/lx-b/lx-netease-music-mobile-main/src/utils/musicSdk/bi/musicSearch.js:73-77 | the adapter starts with limit 20, total 0, page 0, allPage 1 |
| SdkSearch.BiSearch.Search | Desktop/lx-b/lx-netease-music-mobile-main/src/utils/musicSdk/bi/musicSearch.js:197-235 | `search` settles as `SearchRun`, issues its request count, and leaves the fields as the run wrote them (untouched when it wrote none) |
| SdkSearch.BiSearch.SearchAfterEmpty | Desktop/lx-b/lx-netease-music-mobile-main/src/utils/musicSdk/bi/musicSearch.js:203-205 | the retry after an empty page settles as `RetryAfterEmpty`, with the same guarantee on the fields |
| CookieCache.Prime | Desktop/lx-b/lx-netease-music-mobile-main/bilibili.js:33-60 | a cached cookie is returned without a request; otherwise one request is made, and a cookie is kept exactly when the fetch brought `data` |
| CookieCache.CachedForever | Desktop/lx-b/lx-netease-music-mobile-main/bilibili.js:34 | for calls one after another: once cached, the cookie is never replaced and no further request is made |
| CookieCache.AskUntilCached | Desktop/lx-b/lx-netease-music-mobile-main/src/utils/musicSdk/bi/musicSearch.js:37-58 | after k failed or empty fetches, the first good one is kept and exactly k + 1 requests are issued |
| CookieCache.CookieHeader | Desktop/lx-b/lx-netease-music-mobile-main/bilibili.js:107-109 | the `cookie` header is present exactly when a cookie is cached, and starts with `buvid3=` |
| CookieCache.Jar.constructor | Desktop/lx-b/lx-netease-music-mobile-main/bilibili.js:30 | the cache starts empty |
| CookieCache.Jar.GetCookie | Desktop/lx-b/lx-netease-music-mobile-main/src/utils/musicSdk/bi/musicSearch.js:37-58 | `getCookie` updates the cache and reports its request as `Prime` says, and returns the cached value |
| PlayUrl.BestAudio | Desktop/lx-b/lx-netease-music-mobile-main/src/utils/musicSdk/bi/index.js:74-75 | `audios[0]` after the descending stable sort is the first entry of maximal bandwidth |
| PlayUrl.AudioUrl | Desktop/lx-b/lx-netease-music-mobile-main/src/utils/musicSdk/bi/index.js:75 | `base_url`, else the first `backup_url` |
| PlayUrl.PickUrl | Desktop/lx-b/lx-netease-music-mobile-main/src/utils/musicSdk/bi/index.js:71-79 | the best DASH audio's URL when `dash.audio` is non-empty, else `durl[0].url`, else none |
| PlayUrl.Resolve | Desktop/lx-b/lx-netease-music-mobile-main/src/utils/musicSdk/bi/index.js:12-91 | fails with "缺少 bvid 或 aid" and no request exactly when both ids are falsy. Every request names `bvid`, or `aid` when `bvid` is falsy, and the play request asks fnval 16. A present `cid` skips the view request. When an id is present and the `cid` is found, a failed play request rejects with its reason, a body without data gives "获取播放地址失败", a falsy picked URL gives "无法获取播放地址", and a truthy one is returned. A failed `cid` lookup passes its error on. A URL is returned only after the play request |
| PlayUrl.CidLookup | Desktop/lx-b/lx-netease-music-mobile-main/src/utils/musicSdk/bi/index.js:23-43 | without `cid` the view request comes first; no page fails with "无法获取 cid"; otherwise the play request carries `pages[0].cid` |
| PlayUrl.DashPreferred | Desktop/lx-b/lx-netease-music-mobile-main/src/utils/musicSdk/bi/index.js:71-83 | with DASH audio present `durl` is ignored: a truthy best-audio URL is returned (once the id and `cid` are found), and a falsy one fails |
| PlayUrl.GetMusicUrl | Desktop/lx-b/lx-netease-music-mobile-main/src/utils/musicSdk/bi/index.js:95-99 | the wrapper resolves with `{type, url}` exactly when `getMusicUrl` resolves, and passes its error on otherwise |
| PlayUrl.DetailPageUrl | Desktop/lx-b/lx-netease-music-mobile-main/src/utils/musicSdk/bi/index.js:105-114 | the video page by bvid, else `av` + aid; null exactly when both ids are falsy |
| PlayUrl.DetailPageMatchesRequests | Desktop/lx-b/lx-netease-music-mobile-main/src/utils/musicSdk/bi/index.js:105-114 | a detail page exists exactly for the tracks whose URL resolution issues a request, and it names the id those requests carry |
| Plugin.PageSize | Desktop/lx-b/lx-netease-music-mobile-main/bilibili.js:86 | `limit \|\| 20` is always positive and is the caller's limit when one is given |
| Plugin.SearchPage | Desktop/lx-b/lx-netease-music-mobile-main/bilibili.js:121-154 | resolves exactly for an array `data.result`. A missing one gives "搜索失败：返回数据格式错误" and a non-array one the `.map` TypeError. The page holds one track per item, `numResults \|\| length`, the page asked for and the page size |
| Plugin.CodeIgnored | Desktop/lx-b/lx-netease-music-mobile-main/bilibili.js:121-124 | bilibili.js accepts an answer with a non-zero `code` that musicSearch.js rejects |
| Plugin.AdaptersAgree | Desktop/lx-b/lx-netease-music-mobile-main/bilibili.js:126-147 | for an answer both adapters accept, their track lists agree item by item except for the interval (musicSearch.js's `songmid` standing for `id`) |
| Plugin.HandleSearchMusic | Desktop/lx-b/lx-netease-music-mobile-main/bilibili.js:83-159 | primes the cookie cache, sends the `cookie` header of the cached cookie, and settles as `SearchPage` |
| Plugin.Dispatch | Desktop/lx-b/lx-netease-music-mobile-main/bilibili.js:264-301 | `searchMusic` runs the search with `page \|\| 1` and `limit \|\| 20`. `musicUrl` resolves the bare URL without touching the cookie. Any other action rejects with "action not support" |
| Plugin.DispatchDefaults | Desktop/lx-b/lx-netease-music-mobile-main/bilibili.js:278 | a dispatched page has the caller's limit or 20, and a truthy page: the caller's when that is truthy |
| SearchStore.FreshInfo | Desktop/lx-b/lx-netease-music-mobile-main/src/store/search/music/state.ts:47-54 | a new scope is page 1, maxPage 0, limit 30, total 0, with an empty list and the given key |
| SearchStore.RegisteredIff | Desktop/lx-b/lx-netease-music-mobile-main/src/store/search/music/state.ts:43-46 | a source is registered exactly when some SDK entry with its id is `bi` or has `musicSearch` |
| SearchStore.RegisteredInOrder | Desktop/lx-b/lx-netease-music-mobile-main/src/store/search/music/state.ts:43-57 | registration is the order-keeping filter of the SDK's list: the registered ids sit at strictly increasing positions, each of them eligible, and no eligible entry is skipped; with every entry eligible it lists all ids |
| SearchStore.InitialInfosDefaults | Desktop/lx-b/lx-netease-music-mobile-main/src/store/search/music/state.ts:30-56 | the stored scopes are the registered sources and `all`. Each source starts fresh with key "", and `all` with key null. Every `maxPages` entry is 0 |
| SearchStore.InitialStore | Desktop/lx-b/lx-netease-music-mobile-main/src/store/search/music/state.ts:26-58 | the store starts with empty search text and source "wy", lists the registered sources followed by `all`, and has an `all` scope |
| SearchStore.SearchState.constructor | Desktop/lx-b/lx-netease-music-mobile-main/src/store/search/music/state.ts:26-60 | the registration loop builds exactly `InitialStore` |
| UserApiSearch.HostInterval | Desktop/lx-b/lx-netease-music-mobile-main/src/core/search/music.ts:55-58 | a numeric length becomes the clock text bilibili.js renders (minutes n / 60, seconds n % 60), which reads back as that number; other truthy text is kept; a falsy one gives null |
| UserApiSearch.IfTruthy | Desktop/lx-b/lx-netease-music-mobile-main/src/core/search/music.ts:73-75 | a spread extension field is kept exactly when it is truthy |
| UserApiSearch.HostTrackFields | Desktop/lx-b/lx-netease-music-mobile-main/src/core/search/music.ts:52-78 | the host record's id is never falsy and is the item's id, else `source_bvid`, else `source_aid`. The source is kept and the quality defaults to 128k. bvid, cid and aid are carried exactly when truthy |
| UserApiSearch.SameClockAsPlugin | Desktop/lx-b/lx-netease-music-mobile-main/src/core/search/music.ts:55-58 | bilibili.js's interval text passes through unchanged, and a positive number is rendered as bilibili.js renders it; a zero length with no fallback gives null |
| UserApiSearch.Settlement | Desktop/lx-b/lx-netease-music-mobile-main/src/core/search/music.ts:39-90 | a failed status rejects with its message, or "search failed". A list becomes one host record per item. A true status without data or without a list resolves with an empty page. The total is `total ?? list.length`, and `allPage` is its ceiling over the limit |
| UserApiSearch.ZeroTotalKept | Desktop/lx-b/lx-netease-music-mobile-main/src/core/search/music.ts:82-83 | `??` keeps a total of 0, which gives no pages |
| UserApiSearch.SettledIsFinal | Desktop/lx-b/lx-netease-music-mobile-main/src/core/search/music.ts:40 | a settled request ignores every later event |
| UserApiSearch.SettlesOnce | Desktop/lx-b/lx-netease-music-mobile-main/src/core/search/music.ts:39-100 | under any sequence of events the flags stay consistent, and the settlement is the one brought by the first response carrying the request's key, or by the timeout |
| UserApiSearch.PendingSearch.constructor | Desktop/lx-b/lx-netease-music-mobile-main/src/core/search/music.ts:29-114 | the key is `search__` followed by the random digits. The request sent names the source, `searchMusic`, the keyword, page and limit. The request then waits with its timer armed and its listener on |
| UserApiSearch.PendingSearch.OnResponse | Desktop/lx-b/lx-netease-music-mobile-main/src/core/search/music.ts:39-90 | `handleResponse` steps the request as `Next` does on that response |
| UserApiSearch.PendingSearch.OnTimeout | Desktop/lx-b/lx-netease-music-mobile-main/src/core/search/music.ts:94-100 | the timer steps the request as `Next` does on a timeout |
| Coordinator.KeyInjective | Desktop/lx-b/lx-netease-music-mobile-main/src/core/search/music.ts:125 | two `page__text` keys are equal exactly when their pages and texts are |
| Coordinator.Targets | Desktop/lx-b/lx-netease-music-mobile-main/src/core/search/music.ts:144-145 | `all` fans out to exactly the stored sources other than `all` |
| Coordinator.FanOut | Desktop/lx-b/lx-netease-music-mobile-main/src/core/search/music.ts:143-180 | the loop over `sources` builds the targets of `Targets`, in order |
| Coordinator.EmptyTextIsNoop | Desktop/lx-b/lx-netease-music-mobile-main/src/core/search/music.ts:124 | empty text answers `[]` and changes nothing |
| Coordinator.MissingListInfo | Desktop/lx-b/lx-netease-music-mobile-main/src/core/search/music.ts:123-130 | non-empty text fails before any request, with nothing changed, exactly when the scope has no `ListInfo` |
| Coordinator.ShortCircuit | Desktop/lx-b/lx-netease-music-mobile-main/src/core/search/music.ts:128-142 | a non-`all` scope answers from the store, sending and changing nothing, exactly when its key matches and its list is non-empty; `all` never does |
| Coordinator.KeyWrittenFirst | Desktop/lx-b/lx-netease-music-mobile-main/src/core/search/music.ts:125-145 | a query that sends requests first stores its key in its scope and changes nothing else; `all` targets the other sources, and a single scope targets itself |
| Coordinator.FallbackPage | Desktop/lx-b/lx-netease-music-mobile-main/src/core/search/music.ts:170-176 | a source that fails inside `all` contributes an empty page with total 0, allPage 1, limit 30 and its own source |
| Coordinator.Recover | Desktop/lx-b/lx-netease-music-mobile-main/src/core/search/music.ts:148-178 | `all` keeps every source's page in order, with each failure replaced by that source's fallback page |
| Coordinator.CommitOnlyWhenCurrent | Desktop/lx-b/lx-netease-music-mobile-main/src/core/search/music.ts:181-186 | a completion commits exactly when its key is still the stored one, and `all` then also sets the search text and the source `all`. Otherwise it answers `[]` and leaves the store unchanged |
| Coordinator.FailureHandling | Desktop/lx-b/lx-netease-music-mobile-main/src/core/search/music.ts:197-200 | a failed single-source query passes the error on, and clears the scope exactly when its list is non-empty and the page is 1 |
| Coordinator.LatestWins | Desktop/lx-b/lx-netease-music-mobile-main/src/core/search/music.ts:187-196 | after query A and then a different query B start on one scope, A's result is dropped and B's is committed |
| Coordinator.LatestWinsAll | Desktop/lx-b/lx-netease-music-mobile-main/src/core/search/music.ts:141-186 | a superseded `all` query neither commits nor sets the search text and source |
| Coordinator.LateResultDropped | Desktop/lx-b/lx-netease-music-mobile-main/src/core/search/music.ts:187-196 | with a `setListInfo` that keeps the key, when a newer query B commits first, A's late result is still dropped and leaves B's committed entry as it is |
| Coordinator.LateFanOutDropped | Desktop/lx-b/lx-netease-music-mobile-main/src/core/search/music.ts:141-186 | the same for `all`: B's fan-out commits and sets the text, and A's, completing after it, changes nothing |
| Coordinator.StaleFailureClears | Desktop/lx-b/lx-netease-music-mobile-main/src/core/search/music.ts:135-137 | a superseded first-page failure still clears the scope, which the newer query now owns |
| Coordinator.Start | Desktop/lx-b/lx-netease-music-mobile-main/src/core/search/music.ts:123-189 | `search` up to its request updates the store and answers as `StartOn` does |
| Coordinator.FinishSingle | Desktop/lx-b/lx-netease-music-mobile-main/src/core/search/music.ts:187-201 | the single-source completion updates the store and settles as `CompleteSingle` does |
| Coordinator.FinishAll | Desktop/lx-b/lx-netease-music-mobile-main/src/core/search/music.ts:181-186 | the `all` completion updates the store and resolves as `CompleteAll` does |

## Left out

- HTTP, request headers, URL building and `encodeURIComponent` are not
  modelled. Each request's outcome is a parameter: a transport failure or a
  body. The headers built in bilibili.js `handleGetMusicUrl` are never
  returned, so they are left out too.
- `JSON.parse` is not modelled. Text that does not parse is the
  `Unparseable` body.
- `Math.random()` is a parameter. It is the `noise` used for ids, and the
  random digits of the correlator's `requestKey`.
- `formatPlayTime` (src/utils/index) and `toNewMusicInfo` are not part of
  this model. `formatPlayTime` is a function parameter, and `toNewMusicInfo`
  is taken as the identity.
- `setListInfo` and `clearListInfo` (the store's actions) are not part of
  this model. They are the function parameters `commit` and `clear`, applied
  to the scope's `ListInfo`.
- `setSearchText` and `setSource` are taken to set the store's fields.
- The `ListInfo` object `search` captures at the start is taken to be the one
  it reads at completion. That is, `setListInfo` updates the entry in place
  rather than swapping in an object that no longer holds the key.
  `Coordinator.LateResultDropped` and `Coordinator.LateFanOutDropped` take
  this as the hypothesis `KeepsKey(commit)`.
- CookieCache.CachedForever: holds for calls that run one after another.
  Two searches that start before the first cookie fetch completes both fetch
  (bilibili.js:34-54, musicSearch.js:37-52), and the later completion
  replaces the cached cookie. Overlapping calls are not modelled.
- The event bus, `sendAction` and `BackgroundTimer` are events fed to
  `UserApiSearch.Next`. The request sent is recorded as a value.
- Concurrency of `Promise.all` is not modelled. `all` completes once every
  source has settled, with the per-source outcomes as a sequence; how the
  sources interleave is not modelled.
- Source modules other than Bilibili (`musicSdk[source]`) are outcomes given
  to the coordinator. That includes the "source not found" rejection.
- Logging (`console.*`) is not modelled. The dispatcher's `env` switch only
  changes logging, so it is left out too.
- Durations are non-negative whole numbers, or text of digits and ':'. NaN,
  negative and fractional values, and numbers from 1e21 up (which JavaScript
  renders in exponent form), are not modelled.
- Fields that nothing in this core reads are not modelled: `_qualitys`,
  `_types`, `typeUrl`, `types`, `img` and a quality's `size`. The record of
  musicSearch.js has no `id`. Its `songmid` follows the id rule of
  bilibili.js and is modelled as `Track.id`. Its `img` is the same value as
  `meta.picUrl`.
- Absent and null fields are both modelled as `Nil`.
- SdkSearch.BiSearch.Search: does not count the cookie-priming request among
  the requests a call issues. `CookieCache` counts those requests.
- Plugin.SearchPage: the message of the TypeError thrown by `.map` on a
  non-array is a fixed text, not the engine's wording.
- UserApiSearch.Settlement: the message of the TypeError thrown by `.map` on
  a non-array list is a fixed text, not the engine's wording.
- PlayUrl.BestAudio: models the stable sort of current JavaScript engines. An
  engine with an unstable `Array.prototype.sort` could pick another entry of
  the same bandwidth.
- The `limit` a caller passes to musicSearch.js `search` only reaches the
  query sent. Pages and `allPage` use the adapter's own `limit` (20), as the
  code does. The query itself is not modelled.
