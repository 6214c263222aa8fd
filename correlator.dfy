/**
 * `searchMusicFromUserApi` of music.ts: a search sent to the custom source
 * and the pending request that waits for its answer. The request settles
 * once, through the first `userApiSearchResponse` event carrying its
 * `requestKey` or through the 20-second timeout, and settling disarms the
 * timer and removes the listener. The item mapping turns the plugin's
 * records into host tracks.
 */
module UserApiSearch {
  import opened Wrappers
  import opened JsValues
  import opened Duration
  import opened Normalise
  import opened Responses

  /** One record of the plugin's `data.list`, with every field music.ts reads. */
  datatype PluginItem = PluginItem(
    id: Val, bvid: Val, aid: Val, cid: Val,
    interval: Val, duration: Val,
    name: Val, title: Val,
    singer: Val, artist: Val, author: Val,
    albumName: Val, album: Val,
    picUrl: Val, pic: Val, artwork: Val,
    qualitys: Option<seq<Quality>>)

  /** `item.interval || item.duration`: a number becomes `m:ss`, anything else is kept or becomes null. */
  function HostInterval(interval: Val, duration: Val): (r: Val)
    ensures Or(interval, duration).Num? ==> r.Str? && IsClockText(r.s) && DurationToSec(Text(r.s)) == Or(interval, duration).n
    ensures Or(interval, duration).Num? ==> r == Str(Clock(Or(interval, duration).n))
    ensures Or(interval, duration).Str? && Or(interval, duration).s != "" ==> r == Or(interval, duration)
    ensures r.Nil? <==> Or(interval, duration) == Nil || Or(interval, duration) == Str("")
  {
    var d := Or(interval, duration);
    if d.Num? then
      ClockRoundTrip(d.n);
      Str(Clock(d.n))
    else Or(d, Nil)
  }

  /** `...(v ? { key: v } : {})`: the field is set only when truthy, else reads as undefined. */
  function IfTruthy(v: Val): (r: Val)
    ensures Truthy(v) ==> r == v
    ensures !Truthy(v) ==> r == Nil
  {
    if Truthy(v) then v else Nil
  }

  /** The host record music.ts builds from a plugin record; `noise` stands for `Math.random()`. */
  function HostTrack(item: PluginItem, source: string, noise: string): Track {
    Track(
      Or(item.id, Str(source + "_" + ToText(Or(item.bvid, Or(item.aid, Or(item.cid, Str(noise))))))),
      Or(item.name, Or(item.title, Str(""))),
      Or(item.singer, Or(item.artist, Or(item.author, Str("")))),
      source,
      HostInterval(item.interval, item.duration),
      Meta(
        Or(item.id, Or(item.bvid, Or(item.aid, Str("")))),
        Or(item.albumName, Or(item.album, Str(""))),
        Or(item.picUrl, Or(item.pic, Or(item.artwork, Nil))),
        if item.qualitys.Some? then item.qualitys.value else DefaultQualities,
        IfTruthy(item.bvid), IfTruthy(item.cid), IfTruthy(item.aid)))
  }

  /** What each host record carries, field by field. */
  lemma HostTrackFields(item: PluginItem, source: string, noise: string)
    ensures var t := HostTrack(item, source, noise);
      && Truthy(t.id)
      && (Truthy(item.id) ==> t.id == item.id)
      && (!Truthy(item.id) && Truthy(item.bvid) ==> t.id == Str(source + "_" + ToText(item.bvid)))
      && (!Truthy(item.id) && !Truthy(item.bvid) && Truthy(item.aid) ==> t.id == Str(source + "_" + ToText(item.aid)))
      && t.source == source
      && (item.qualitys.None? ==> t.meta.qualities == [Quality("128k")])
      && (Truthy(t.meta.bvid) <==> Truthy(item.bvid)) && (Truthy(t.meta.bvid) ==> t.meta.bvid == item.bvid)
      && (Truthy(t.meta.cid) <==> Truthy(item.cid)) && (Truthy(t.meta.cid) ==> t.meta.cid == item.cid)
      && (Truthy(t.meta.aid) <==> Truthy(item.aid)) && (Truthy(t.meta.aid) ==> t.meta.aid == item.aid)
      && (!Truthy(item.bvid) ==> t.meta.bvid == Nil)
  {
  }

  /**
   * A bilibili.js record's `interval` (the clock text of its length) passes
   * through unchanged, and a positive numeric length is rendered the same
   * way bilibili.js renders it; a numeric 0 is falsy and, with no
   * `duration` to fall back to, gives null.
   */
  lemma SameClockAsPlugin(n: nat, duration: Val)
    ensures HostInterval(Str(SecToDuration(Seconds(n)).value), duration) == Str(SecToDuration(Seconds(n)).value)
    ensures n > 0 ==> HostInterval(Num(n), duration) == Str(SecToDuration(Seconds(n)).value)
    ensures HostInterval(Num(0), Nil) == Nil
  {
    var text := SecToDuration(Seconds(n)).value;
    assert text == Clock(n) && |text| >= 4;
    assert Truthy(Str(text));
  }

  /** `result?.data?.list`: missing (then `[]`), an array, or something `.map` fails on. */
  datatype ListField = NoList | List(items: seq<PluginItem>) | NotList

  /** `result?.data`, read for `list` and `total` (a missing `total` is `None`). */
  datatype PluginData = PluginData(list: ListField, total: Option<nat>)

  /** A `userApiSearchResponse` event. */
  datatype ResponseEvent = ResponseEvent(requestKey: string, status: bool, errorMessage: Option<string>, data: Option<PluginData>)

  const SearchFailed := "search failed"
  const SearchTimeout := "search timeout"
  /** The message of the TypeError thrown by `.map` on a non-array; the engine's exact wording is not modelled. */
  const ListNotArray := "list.map is not a function"

  /** The records of a successful answer, and its `total ?? list.length`. */
  function Records(data: Option<PluginData>, source: string, noise: nat -> string): Option<(seq<Track>, nat)> {
    var field := if data.Some? then data.value.list else NoList;
    match field
    case NotList => None
    case NoList => Some(([], if data.Some? && data.value.total.Some? then data.value.total.value else 0))
    case List(items) =>
      var list := seq(|items|, i requires 0 <= i < |items| => HostTrack(items[i], source, noise(i)));
      Some((list, if data.Some? && data.value.total.Some? then data.value.total.value else |list|))
  }

  /** How a matching response settles the request. */
  function Settlement(ev: ResponseEvent, source: string, limit: PosInt, noise: nat -> string): (r: Result<SearchPage, string>)
    ensures !ev.status ==> r == Failure(if ev.errorMessage.Some? then ev.errorMessage.value else SearchFailed)
    ensures r.Success? ==> r.value.limit == limit && r.value.source == source
                           && r.value.allPage == CeilDiv(r.value.total, limit)
    ensures r.Success? && ev.data.Some? && ev.data.value.total.Some? ==> r.value.total == ev.data.value.total.value
    ensures r.Success? && (ev.data.None? || ev.data.value.total.None?) ==> r.value.total == |r.value.list|
    ensures ev.status && ev.data.Some? && ev.data.value.list.NotList? ==> r == Failure(ListNotArray)
    ensures ev.status && (ev.data.None? || ev.data.value.list.NoList?) ==> r.Success? && r.value.list == []
    ensures ev.status && ev.data.Some? && ev.data.value.list.List? ==>
      r.Success? && |r.value.list| == |ev.data.value.list.items|
      && forall i :: 0 <= i < |r.value.list| ==> r.value.list[i] == HostTrack(ev.data.value.list.items[i], source, noise(i))
  {
    if !ev.status then Failure(if ev.errorMessage.Some? then ev.errorMessage.value else SearchFailed)
    else match Records(ev.data, source, noise)
      case None => Failure(ListNotArray)
      case Some((list, total)) => Success(SearchPage(list, CeilDiv(total, limit), limit, total, source))
  }

  /** A total of 0 is kept (`??`, not `||`): such an answer has no pages, whatever its list. */
  lemma ZeroTotalKept(key: string, items: seq<PluginItem>, source: string, limit: PosInt, noise: nat -> string)
    ensures var r := Settlement(ResponseEvent(key, true, None, Some(PluginData(List(items), Some(0)))), source, limit, noise);
      r.Success? && r.value.total == 0 && r.value.allPage == 0
  {
  }

  /** The pending request's flags and settlement, as a value. */
  datatype Pending = Pending(isResolved: bool, timerArmed: bool, listening: bool, settlement: Option<Result<SearchPage, string>>)

  predicate Consistent(p: Pending) {
    (p.isResolved <==> p.settlement.Some?) && (p.isResolved <==> !p.timerArmed) && (p.isResolved <==> !p.listening)
  }

  const Waiting := Pending(false, true, true, None)

  /** What can happen to a pending request: a response event (any key) or the timer firing. */
  datatype Event = Response(ev: ResponseEvent, noise: nat -> string) | Timeout

  /** One event's effect on a request keyed `key` for `source` with page size `limit`. */
  function Next(p: Pending, key: string, source: string, limit: PosInt, e: Event): Pending {
    if p.isResolved then p
    else match e
      case Response(ev, noise) =>
        if ev.requestKey != key then p
        else Pending(true, false, false, Some(Settlement(ev, source, limit, noise)))
      case Timeout => Pending(true, false, false, Some(Failure(SearchTimeout)))
  }

  function RunEvents(p: Pending, key: string, source: string, limit: PosInt, es: seq<Event>): Pending
    decreases |es|
  {
    if es == [] then p else RunEvents(Next(p, key, source, limit, es[0]), key, source, limit, es[1..])
  }

  /** Whether an event settles a request keyed `key` that is still waiting. */
  predicate Settles(e: Event, key: string) {
    e.Timeout? || e.ev.requestKey == key
  }

  /** The settlement the first settling event brings. */
  function FirstSettlement(key: string, source: string, limit: PosInt, es: seq<Event>): Option<Result<SearchPage, string>>
    decreases |es|
  {
    if es == [] then None
    else if Settles(es[0], key) then Next(Waiting, key, source, limit, es[0]).settlement
    else FirstSettlement(key, source, limit, es[1..])
  }

  /** A settled request ignores every later event. */
  lemma {:induction false} SettledIsFinal(p: Pending, key: string, source: string, limit: PosInt, es: seq<Event>)
    requires p.isResolved
    ensures RunEvents(p, key, source, limit, es) == p
    decreases |es|
  {
    if es != [] {
      SettledIsFinal(p, key, source, limit, es[1..]);
    }
  }

  /**
   * Whatever events arrive, in whatever order, the request keeps its flags
   * consistent and settles with the first event that carries its key or the
   * timeout, and with no other: a second response, or a timeout after a
   * response, changes nothing.
   */
  lemma {:induction false} SettlesOnce(key: string, source: string, limit: PosInt, es: seq<Event>)
    ensures var p := RunEvents(Waiting, key, source, limit, es);
      && Consistent(p)
      && p.settlement == FirstSettlement(key, source, limit, es)
    decreases |es|
  {
    if es != [] {
      var p1 := Next(Waiting, key, source, limit, es[0]);
      if Settles(es[0], key) {
        SettledIsFinal(p1, key, source, limit, es[1..]);
      } else {
        SettlesOnce(key, source, limit, es[1..]);
      }
    }
  }

  /** The action sent to the plugin. */
  datatype SentRequest = SentRequest(requestKey: string, source: string, action: string, keyword: string, page: nat, limit: nat)

  /**
   * One call of `searchMusicFromUserApi(source, keyword, page, limit)` after
   * it has registered its listener, armed its timer and sent the request.
   */
  class PendingSearch {
    const requestKey: string
    const source: string
    const limit: PosInt
    const sent: SentRequest
    var isResolved: bool
    var timerArmed: bool
    var listening: bool
    var settlement: Option<Result<SearchPage, string>>

    function State(): Pending
      reads this
    {
      Pending(isResolved, timerArmed, listening, settlement)
    }

    /** `requestKey` is `search__` and the digits of a random number, given here as `randomDigits`. */
    constructor (source: string, keyword: string, page: nat, limit: PosInt, randomDigits: string)
      ensures requestKey == "search__" + randomDigits && this.source == source && this.limit == limit
      ensures sent == SentRequest(requestKey, source, "searchMusic", keyword, page, limit)
      ensures State() == Waiting
    {
      requestKey := "search__" + randomDigits;
      this.source := source;
      this.limit := limit;
      sent := SentRequest("search__" + randomDigits, source, "searchMusic", keyword, page, limit);
      isResolved, timerArmed, listening, settlement := false, true, true, None;
    }

    /** `handleResponse`. */
    method OnResponse(ev: ResponseEvent, noise: nat -> string)
      modifies this
      ensures State() == Next(old(State()), requestKey, source, limit, Response(ev, noise))
    {
      if ev.requestKey != requestKey || isResolved {
        return;
      }
      isResolved := true;
      timerArmed, listening := false, false;
      settlement := Some(Settlement(ev, source, limit, noise));
    }

    /** The timer's callback. */
    method OnTimeout()
      modifies this
      ensures State() == Next(old(State()), requestKey, source, limit, Timeout)
    {
      if !isResolved {
        isResolved := true;
        timerArmed, listening := false, false;
        settlement := Some(Failure(SearchTimeout));
      }
    }
  }
}
