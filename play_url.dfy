/**
 * Play-URL resolution for a Bilibili track: `getMusicUrl` of index.js, whose
 * decisions bilibili.js's `handleGetMusicUrl` repeats, the `{type, url}`
 * wrapper, and `getMusicDetailPageUrl`.
 */
module PlayUrl {
  import opened Wrappers
  import opened JsValues

  /** `musicInfo.meta?.bvid`, `…aid`, `…cid` (all `Nil` when `meta` is missing). */
  datatype SongMeta = SongMeta(bvid: Val, aid: Val, cid: Val)

  /** The id parameter of both requests: `bvid ? { bvid } : { aid }`. */
  datatype IdParam = ByBvid(bvid: Val) | ByAid(aid: Val)

  /** The requests issued, in order; `PlayRequest` carries `fnval` (16 asks for DASH). */
  datatype Request = ViewRequest(id: IdParam) | PlayRequest(id: IdParam, cid: Val, fnval: nat)

  /** One `dash.audio` entry; a missing `bandwidth` is 0, a missing `backup_url` is `None`. */
  datatype Audio = Audio(bandwidth: nat, baseUrl: Val, backupUrl: Option<seq<Val>>)

  /** The view response's `data`: the `cid` of each of `pages` (missing `pages` is empty). */
  datatype ViewData = ViewData(pageCids: seq<Val>)

  /** The play response's `data`: `dash.audio` and each `durl[i].url` (missing arrays are empty). */
  datatype PlayData = PlayData(dashAudio: seq<Audio>, durl: seq<Val>)

  /** A request's outcome: the transport failed, or a body arrived whose `data` may be missing. */
  datatype Reply<T> = Failed(reason: string) | Body(data: Option<T>)

  const MissingId := "缺少 bvid 或 aid"
  const NoCid := "无法获取 cid"
  const NoPlayData := "获取播放地址失败"
  const NoUrl := "无法获取播放地址"
  const DashFnval := 16

  /**
   * The entry `audios[0]` names after the descending, stable sort by
   * bandwidth: the first entry of maximal bandwidth.
   */
  function BestAudio(audios: seq<Audio>): (i: nat)
    requires |audios| > 0
    ensures i < |audios|
    ensures forall j :: 0 <= j < |audios| ==> audios[j].bandwidth <= audios[i].bandwidth
    ensures forall j :: 0 <= j < i ==> audios[j].bandwidth < audios[i].bandwidth
    decreases |audios|
  {
    if |audios| == 1 then 0
    else
      var i := BestAudio(audios[..|audios| - 1]);
      if audios[|audios| - 1].bandwidth > audios[i].bandwidth then |audios| - 1 else i
  }

  /** `audio.base_url || audio.backup_url?.[0]`. */
  function AudioUrl(a: Audio): (r: Val)
    ensures Truthy(a.baseUrl) ==> r == a.baseUrl
    ensures !Truthy(a.baseUrl) ==> r == (if a.backupUrl.Some? && |a.backupUrl.value| > 0 then a.backupUrl.value[0] else Nil)
  {
    Or(a.baseUrl, if a.backupUrl.Some? && |a.backupUrl.value| > 0 then a.backupUrl.value[0] else Nil)
  }

  /** The URL the play data yields: the best DASH audio's, else `durl[0].url`, else none. */
  function PickUrl(d: PlayData): (r: Val)
    ensures |d.dashAudio| > 0 ==> r == AudioUrl(d.dashAudio[BestAudio(d.dashAudio)])
    ensures |d.dashAudio| == 0 && |d.durl| > 0 ==> r == d.durl[0]
    ensures |d.dashAudio| == 0 && |d.durl| == 0 ==> r == Nil
  {
    if |d.dashAudio| > 0 then AudioUrl(d.dashAudio[BestAudio(d.dashAudio)])
    else if |d.durl| > 0 then d.durl[0]
    else Nil
  }

  function IdOf(m: SongMeta): IdParam {
    if Truthy(m.bvid) then ByBvid(m.bvid) else ByAid(m.aid)
  }

  /** How `getMusicUrl` settles, and the requests it issued on the way. */
  datatype Resolution = Resolution(result: Result<Val, string>, requests: seq<Request>)

  /** The `cid` to play: `meta.cid`, or else `pages[0].cid` of the view response. */
  function CidFrom(m: SongMeta, view: Reply<ViewData>): Result<Val, string> {
    if Truthy(m.cid) then Success(m.cid)
    else match view
      case Failed(reason) => Failure(reason)
      case Body(None) => Failure(NoCid)
      case Body(Some(d)) => if |d.pageCids| > 0 then Success(d.pageCids[0]) else Failure(NoCid)
  }

  /**
   * `getMusicUrl(songInfo, type)` with the view request (sent only when
   * `meta.cid` is falsy) answered by `view` and the play request by `play`.
   */
  function Resolve(m: SongMeta, view: Reply<ViewData>, play: Reply<PlayData>): (r: Resolution)
    ensures !Truthy(m.bvid) && !Truthy(m.aid) <==> r == Resolution(Failure(MissingId), [])
    ensures r.result.Success? ==> Truthy(r.result.value)
    ensures forall q :: q in r.requests ==> q.id == IdOf(m) && (q.PlayRequest? ==> q.fnval == DashFnval)
    ensures Truthy(m.cid) ==> forall q :: q in r.requests ==> q.PlayRequest? && q.cid == m.cid
    ensures r.result.Success? ==> |r.requests| > 0 && r.requests[|r.requests| - 1].PlayRequest? && play.Body? && play.data.Some?
                                  && r.result.value == PickUrl(play.data.value)
    ensures (Truthy(m.bvid) || Truthy(m.aid)) && CidFrom(m, view).Failure? ==> r.result == Failure(CidFrom(m, view).error)
    ensures (Truthy(m.bvid) || Truthy(m.aid)) && CidFrom(m, view).Success? ==>
      match play
      case Failed(reason) => r.result == Failure(reason)
      case Body(None) => r.result == Failure(NoPlayData)
      case Body(Some(d)) => r.result == (if Truthy(PickUrl(d)) then Success(PickUrl(d)) else Failure(NoUrl))
  {
    if !Truthy(m.bvid) && !Truthy(m.aid) then Resolution(Failure(MissingId), [])
    else
      var id := IdOf(m);
      var viewRequests := if Truthy(m.cid) then [] else [ViewRequest(id)];
      match CidFrom(m, view)
      case Failure(e) => Resolution(Failure(e), viewRequests)
      case Success(cid) =>
        var requests := viewRequests + [PlayRequest(id, cid, DashFnval)];
        match play
        case Failed(reason) => Resolution(Failure(reason), requests)
        case Body(None) => Resolution(Failure(NoPlayData), requests)
        case Body(Some(d)) =>
          var url := PickUrl(d);
          if !Truthy(url) then Resolution(Failure(NoUrl), requests) else Resolution(Success(url), requests)
  }

  /**
   * Without `meta.cid` the view request goes first and the play request
   * carries the first page's `cid`; with no page the call fails after the
   * view request alone.
   */
  lemma CidLookup(m: SongMeta, pages: seq<Val>, play: Reply<PlayData>)
    requires Truthy(m.bvid) || Truthy(m.aid)
    requires !Truthy(m.cid)
    ensures var r := Resolve(m, Body(Some(ViewData(pages))), play);
      && r.requests[0] == ViewRequest(IdOf(m))
      && (|pages| == 0 ==> r == Resolution(Failure(NoCid), [ViewRequest(IdOf(m))]))
      && (|pages| > 0 ==> |r.requests| == 2 && r.requests[1] == PlayRequest(IdOf(m), pages[0], DashFnval))
  {
  }

  /** `durl` is consulted only when `dash.audio` is empty: a DASH entry wins even when its URL is empty. */
  lemma DashPreferred(m: SongMeta, view: Reply<ViewData>, audios: seq<Audio>, durl: seq<Val>)
    requires |audios| > 0
    ensures var r := Resolve(m, view, Body(Some(PlayData(audios, durl))));
      r.result.Success? ==> r.result.value == AudioUrl(audios[BestAudio(audios)])
    ensures var r := Resolve(m, view, Body(Some(PlayData(audios, durl))));
      !Truthy(AudioUrl(audios[BestAudio(audios)])) ==> r.result.Failure?
    ensures var r := Resolve(m, view, Body(Some(PlayData(audios, durl))));
      (Truthy(m.bvid) || Truthy(m.aid)) && CidFrom(m, view).Success? && Truthy(AudioUrl(audios[BestAudio(audios)])) ==>
      r.result == Success(AudioUrl(audios[BestAudio(audios)]))
  {
  }

  /** The settled value of the wrapper in index.js: the requested quality echoed beside the URL. */
  datatype TypedUrl = TypedUrl(kind: string, url: Val)

  /** `bi.getMusicUrl(songInfo, type).promise`. */
  function GetMusicUrl(m: SongMeta, kind: string, view: Reply<ViewData>, play: Reply<PlayData>): (r: Result<TypedUrl, string>)
    ensures r.Success? <==> Resolve(m, view, play).result.Success?
    ensures r.Success? ==> r.value == TypedUrl(kind, Resolve(m, view, play).result.value)
    ensures r.Failure? ==> r.error == Resolve(m, view, play).result.error
  {
    match Resolve(m, view, play).result
    case Success(url) => Success(TypedUrl(kind, url))
    case Failure(e) => Failure(e)
  }

  const VideoPage := "https://www.bilibili.com/video/"

  /** `getMusicDetailPageUrl`: the video page by `bvid`, else by `av` + `aid`, else null. */
  function DetailPageUrl(m: SongMeta): (r: Option<string>)
    ensures Truthy(m.bvid) ==> r == Some(VideoPage + ToText(m.bvid))
    ensures !Truthy(m.bvid) && Truthy(m.aid) ==> r == Some(VideoPage + "av" + ToText(m.aid))
    ensures r.None? <==> !Truthy(m.bvid) && !Truthy(m.aid)
  {
    if Truthy(m.bvid) then Some(VideoPage + ToText(m.bvid))
    else if Truthy(m.aid) then Some(VideoPage + "av" + ToText(m.aid))
    else None
  }

  /**
   * The detail page exists exactly for the tracks whose play-URL resolution
   * gets past the id check (and so issues a request), and it names the same
   * id the requests carry.
   */
  lemma DetailPageMatchesRequests(m: SongMeta, view: Reply<ViewData>, play: Reply<PlayData>)
    ensures DetailPageUrl(m).Some? <==> |Resolve(m, view, play).requests| > 0
    ensures DetailPageUrl(m).Some? ==>
      DetailPageUrl(m).value == VideoPage + (match IdOf(m) case ByBvid(b) => ToText(b) case ByAid(a) => "av" + ToText(a))
  {
  }
}
