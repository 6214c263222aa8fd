/**
 * musicSearch.js, the host's built-in Bilibili adapter: the response checks
 * of `musicSearch`, the item mapping of `handleResult`, and the retrying
 * `search`, which keeps `total`, `page` and `allPage` on the adapter object.
 */
module SdkSearch {
  import opened Wrappers
  import opened JsValues
  import opened Normalise
  import opened Responses

  /** What `musicSearch` resolves with: the item array, `numResults` and `page`. */
  datatype Found = Found(result: seq<RawItem>, numResults: nat, page: Val)

  /** The item array `musicSearch` settles on: `result` itself, or its `vlist`. */
  predicate HasItems(d: SearchData) {
    d.result.Items? || (d.result.Record? && d.result.vlist.Some?)
  }

  function ItemsOf(d: SearchData): seq<RawItem>
    requires HasItems(d)
  {
    if d.result.Items? then d.result.items else d.result.vlist.value
  }

  /** A body `musicSearch` accepts: JSON, no error code, and an item array under `data`. */
  predicate Accepted(b: Body) {
    b.Json? && (b.code.None? || b.code == Some(0)) && b.data.Some? && HasItems(b.data.value)
  }

  /**
   * `musicSearch` after the request: parse, then check `code`, `data`,
   * `result` and the `vlist` fallback, in that order, each with its own error.
   */
  function MusicSearch(a: Attempt): (r: Result<Found, SearchError>)
    ensures r.Success? <==> a.Reply? && Accepted(a.body)
    ensures r.Success? ==> r.value.result == ItemsOf(a.body.data.value)
    ensures r.Success? ==> r.value.numResults == (if a.body.data.value.numResults != 0
                                                  then a.body.data.value.numResults
                                                  else |r.value.result|)
    ensures a.Refused? ==> r == Failure(Transport(a.reason))
    ensures a == Reply(Unparseable) ==> r == Failure(MalformedJson)
    ensures a.Reply? && a.body.Json? && a.body.code.Some? && a.body.code != Some(0) ==>
              r == Failure(BackendCode(if a.body.message.Some? && a.body.message.value != ""
                                       then a.body.message.value else UnknownError))
  {
    match a
    case Refused(reason) => Failure(Transport(reason))
    case Reply(Unparseable) => Failure(MalformedJson)
    case Reply(Json(code, message, data)) =>
      if code.Some? && code.value != 0 then
        Failure(BackendCode(if message.Some? && message.value != "" then message.value else UnknownError))
      else if data.None? then Failure(NoData)
      else if data.value.result.Missing? then Failure(NoResult)
      else if !HasItems(data.value) then Failure(BadShape)
      else
        var list := ItemsOf(data.value);
        Success(Found(list, if data.value.numResults != 0 then data.value.numResults else |list|, data.value.page))
  }

  /** The error a failing body gets: the first failing check wins. */
  lemma CheckOrder(code: Option<int>, message: Option<string>, data: Option<SearchData>)
    ensures code.None? || code == Some(0) ==>
      var r := MusicSearch(Reply(Json(code, message, data)));
      && (data.None? ==> r == Failure(NoData))
      && (data.Some? && data.value.result.Missing? ==> r == Failure(NoResult))
      && (data.Some? && data.value.result.Record? && data.value.result.vlist.None? ==> r == Failure(BadShape))
      && (data.Some? && data.value.result.Record? && data.value.result.vlist.Some? ==>
            r.Success? && r.value.result == data.value.result.vlist.value)
  {
  }

  /**
   * `handleResult`: `[]` for anything but an array, otherwise one record per
   * item in order; `noise(i)` stands for the i-th item's `Math.random()`.
   */
  function HandleResult(raw: Option<seq<RawItem>>, noise: nat -> string, formatPlayTime: nat -> string): (r: seq<Track>)
    ensures raw.None? ==> r == []
    ensures raw.Some? ==> |r| == |raw.value|
    ensures raw.Some? ==> forall i :: 0 <= i < |r| ==> r[i] == SdkTrack(raw.value[i], noise(i), formatPlayTime)
    ensures forall i :: 0 <= i < |r| ==> r[i].source == "bi" && r[i].meta.qualities == [Quality("128k")]
  {
    match raw
    case None => []
    case Some(items) => seq(|items|, i requires 0 <= i < |items| => SdkTrack(items[i], noise(i), formatPlayTime))
  }


  /** The adapter fields `search` writes on a non-empty page. */
  datatype Fields = Fields(total: nat, page: nat, allPage: nat)

  /**
   * One `search` call: how it settles, how many search requests it issued,
   * and the fields it wrote (`None` when it wrote none).
   */
  datatype Run = Run(result: Result<SearchPage, SearchError>, used: nat, fields: Option<Fields>)

  function EmptyPage(limit: nat): SearchPage {
    SearchPage([], 1, limit, 0, "bi")
  }

  /** What one request means to `search`: an error, an empty page, or records with their total. */
  datatype Step = Err(error: SearchError) | Empty | Records(list: seq<Track>, total: nat)

  function Classify(a: Attempt, noise: nat -> string, formatPlayTime: nat -> string): Step {
    match MusicSearch(a)
    case Failure(e) => Err(e)
    case Success(found) =>
      var list := HandleResult(Some(found.result), noise, formatPlayTime);
      if |list| == 0 then Empty
      else Records(list, if found.numResults != 0 then found.numResults else |list|)
  }

  /**
   * A request is an error exactly when `musicSearch` rejects, and an empty
   * page exactly when it resolves with no items; otherwise `search` sees one
   * record per item and the `numResults || length` total.
   */
  lemma ClassifyMeaning(a: Attempt, noise: nat -> string, formatPlayTime: nat -> string)
    ensures var s := Classify(a, noise, formatPlayTime);
      && (s.Err? <==> MusicSearch(a).Failure?)
      && (s.Err? ==> s.error == MusicSearch(a).error)
      && (s.Empty? <==> MusicSearch(a).Success? && |MusicSearch(a).value.result| == 0)
      && (s.Records? ==> |s.list| == |MusicSearch(a).value.result| > 0
                         && s.total == MusicSearch(a).value.numResults
                         && s.list == HandleResult(Some(MusicSearch(a).value.result), noise, formatPlayTime))
  {
  }

  /**
   * What a call depends on besides its counter: the requested page, the
   * adapter's `limit`, and what each request in order comes to.
   */
  datatype Env = Env(page: nat, limit: PosInt, steps: nat -> Step)

  /** The steps of the requests answered by `outs`, under the host's random and time-formatting functions. */
  function Steps(outs: nat -> Attempt, noise: nat -> string, formatPlayTime: nat -> string): nat -> Step {
    (j: nat) => Classify(outs(j), noise, formatPlayTime)
  }

  /**
   * The fields a run wrote agree with its result: they are written exactly
   * when it resolves with a non-empty page, and then they are that page's
   * `total` and `allPage` and the requested page; every page carries the
   * adapter's own `limit` and source.
   */
  predicate FieldsAgree(run: Run, env: Env) {
    && (run.fields.Some? <==> run.result.Success? && |run.result.value.list| > 0)
    && (run.fields.Some? ==> run.fields.value == Fields(run.result.value.total, env.page, run.result.value.allPage))
    && (run.result.Success? ==> run.result.value.limit == env.limit && run.result.value.source == "bi")
    && (run.result.Success? && |run.result.value.list| > 0 ==>
          run.result.value.allPage == CeilDiv(run.result.value.total, env.limit))
  }

  /** A step that is a page holds at least one record. */
  ghost predicate WellFormed(env: Env) {
    forall j: nat :: env.steps(j).Records? ==> |env.steps(j).list| > 0
  }

  lemma StepsWellFormed(page: nat, limit: PosInt, outs: nat -> Attempt, noise: nat -> string, formatPlayTime: nat -> string)
    ensures WellFormed(Env(page, limit, Steps(outs, noise, formatPlayTime)))
  {
    forall j: nat
      ensures var s := Steps(outs, noise, formatPlayTime)(j); s.Records? ==> |s.list| > 0
    {
      ClassifyMeaning(outs(j), noise, formatPlayTime);
    }
  }

  /** The most requests one call can issue, by the counter it is entered with. */
  function Budget(retryNum: nat): nat {
    if retryNum == 0 then 7 else if retryNum == 1 then 3 else if retryNum == 2 then 1 else 0
  }

  /**
   * `search(str, page, limit, retryNum)` with its requests, from the `k`-th
   * on, coming to `env.steps(k)`, `env.steps(k + 1)`, ...: how it settles, how
   * many requests it issues and the fields it writes. While the counter stays
   * below 3, a failed request is retried through `.catch`, and an empty page
   * is retried inside `.then` (`RetryAfterEmpty`); at 3 the error is passed
   * on and the empty page returned.
   */
  function SearchRun(retryNum: nat, k: nat, env: Env): (r: Run)
    ensures WellFormed(env) ==> FieldsAgree(r, env)
    ensures r.used <= Budget(retryNum)
    ensures retryNum < 3 <==> r.used >= 1
    decreases 3 - retryNum, 1
  {
    if retryNum >= 3 then Run(Failure(TryMax), 0, None)
    else
      match env.steps(k)
      case Err(e) =>
        if retryNum < 2 then
          var next := SearchRun(retryNum + 1, k + 1, env);
          Run(next.result, next.used + 1, next.fields)
        else Run(Failure(e), 1, None)
      case Empty =>
        if retryNum < 2 then RetryAfterEmpty(retryNum + 1, k + 1, env)
        else Run(Success(EmptyPage(env.limit)), 1, None)
      case Records(list, total) =>
        assert WellFormed(env) ==> env.steps(k).Records? ==> |env.steps(k).list| > 0;
        var allPage := CeilDiv(total, env.limit);
        Run(Success(SearchPage(list, allPage, env.limit, total, "bi")), 1, Some(Fields(total, env.page, allPage)))
  }

  /**
   * The retry at counter `n` after an empty page at request `k - 1`, which is
   * counted: the retry is taken when it resolves; when it rejects, the
   * `.catch` that hangs on the whole `.then` chain retries once more at the
   * same counter.
   */
  function RetryAfterEmpty(n: nat, k: nat, env: Env): (r: Run)
    requires n < 3
    ensures WellFormed(env) ==> FieldsAgree(r, env)
    ensures 2 <= r.used <= 1 + 2 * Budget(n)
    decreases 3 - n + 1, 0
  {
    var next := SearchRun(n, k, env);
    if next.result.Success? then Run(next.result, next.used + 1, next.fields)
    else
      var again := SearchRun(n, k + next.used, env);
      Run(again.result, 1 + next.used + again.used, again.fields)
  }

  /**
   * One unfolding of `RetryAfterEmpty`, field by field, with the second
   * retry starting at `k2`, the request after the first retry's last.
   */
  lemma RetryAfterEmptyUnfolds(n: nat, k: nat, k2: nat, env: Env)
    requires n < 3 && k2 == k + SearchRun(n, k, env).used
    ensures var next := SearchRun(n, k, env);
      next.result.Success? ==>
        var r := RetryAfterEmpty(n, k, env);
        r.result == next.result && r.used == next.used + 1 && r.fields == next.fields
    ensures var next := SearchRun(n, k, env);
      var again := SearchRun(n, k2, env);
      next.result.Failure? ==>
        var r := RetryAfterEmpty(n, k, env);
        r.result == again.result && r.used == 1 + next.used + again.used && r.fields == again.fields
  {
  }

  /** A call entered with the counter already at 3 rejects at once, with no request. */
  lemma TryMaxWithoutRequest(retryNum: nat, k: nat, env: Env)
    requires retryNum >= 3
    ensures SearchRun(retryNum, k, env) == Run(Failure(TryMax), 0, None)
  {
  }

  /** A request answered with an accepted body holding no items. */
  predicate EmptyReply(a: Attempt) {
    MusicSearch(a).Success? && |MusicSearch(a).value.result| == 0
  }

  lemma {:induction false} AllEmptySteps(retryNum: nat, k: nat, env: Env)
    requires retryNum < 3
    requires forall j :: k <= j < k + 3 - retryNum ==> env.steps(j) == Empty
    ensures SearchRun(retryNum, k, env) == Run(Success(EmptyPage(env.limit)), 3 - retryNum, None)
    decreases 3 - retryNum
  {
    assert env.steps(k) == Empty;
    if retryNum < 2 {
      AllEmptySteps(retryNum + 1, k + 1, env);
    }
  }

  /** If every request comes back empty, the call issues 3 - retryNum requests and resolves with the empty page. */
  lemma AllEmpty(retryNum: nat, k: nat, page: nat, limit: PosInt, outs: nat -> Attempt,
                 noise: nat -> string, formatPlayTime: nat -> string)
    requires retryNum < 3
    requires forall j :: k <= j < k + 3 - retryNum ==> EmptyReply(outs(j))
    ensures SearchRun(retryNum, k, Env(page, limit, Steps(outs, noise, formatPlayTime)))
         == Run(Success(EmptyPage(limit)), 3 - retryNum, None)
  {
    var env := Env(page, limit, Steps(outs, noise, formatPlayTime));
    forall j | k <= j < k + 3 - retryNum
      ensures env.steps(j) == Empty
    {
      ClassifyMeaning(outs(j), noise, formatPlayTime);
    }
    AllEmptySteps(retryNum, k, env);
  }

  lemma {:induction false} AllFailSteps(retryNum: nat, k: nat, env: Env)
    requires retryNum < 3
    requires forall j :: k <= j < k + 3 - retryNum ==> env.steps(j).Err?
    ensures SearchRun(retryNum, k, env) == Run(Failure(env.steps(k + 2 - retryNum).error), 3 - retryNum, None)
    decreases 3 - retryNum
  {
    assert env.steps(k).Err?;
    if retryNum < 2 {
      AllFailSteps(retryNum + 1, k + 1, env);
    }
  }

  /** If every request fails, the call issues 3 - retryNum requests and rejects with the last error. */
  lemma AllFail(retryNum: nat, k: nat, page: nat, limit: PosInt, outs: nat -> Attempt,
                noise: nat -> string, formatPlayTime: nat -> string)
    requires retryNum < 3
    requires forall j :: k <= j < k + 3 - retryNum ==> MusicSearch(outs(j)).Failure?
    ensures SearchRun(retryNum, k, Env(page, limit, Steps(outs, noise, formatPlayTime)))
         == Run(Failure(MusicSearch(outs(k + 2 - retryNum)).error), 3 - retryNum, None)
  {
    var env := Env(page, limit, Steps(outs, noise, formatPlayTime));
    forall j | k <= j < k + 3 - retryNum
      ensures env.steps(j).Err? && env.steps(j).error == MusicSearch(outs(j)).error
    {
      ClassifyMeaning(outs(j), noise, formatPlayTime);
    }
    AllFailSteps(retryNum, k, env);
  }

  /** Two empty pages and then items: three requests, and the third page is the answer. */
  lemma ThirdTimeLucky(k: nat, page: nat, limit: PosInt, outs: nat -> Attempt,
                       noise: nat -> string, formatPlayTime: nat -> string)
    requires EmptyReply(outs(k)) && EmptyReply(outs(k + 1))
    requires MusicSearch(outs(k + 2)).Success? && |MusicSearch(outs(k + 2)).value.result| > 0
    ensures var run := SearchRun(0, k, Env(page, limit, Steps(outs, noise, formatPlayTime)));
      && run.used == 3 && run.result.Success?
      && run.result.value.list == HandleResult(Some(MusicSearch(outs(k + 2)).value.result), noise, formatPlayTime)
  {
    var env := Env(page, limit, Steps(outs, noise, formatPlayTime));
    ClassifyMeaning(outs(k), noise, formatPlayTime);
    ClassifyMeaning(outs(k + 1), noise, formatPlayTime);
    ClassifyMeaning(outs(k + 2), noise, formatPlayTime);
    assert env.steps(k) == Empty && env.steps(k + 1) == Empty && env.steps(k + 2).Records?;
    var r2 := SearchRun(2, k + 2, env);
    assert r2.used == 1 && r2.result.Success?;
    assert RetryAfterEmpty(2, k + 2, env) == Run(r2.result, 2, r2.fields);
    var r1 := SearchRun(1, k + 1, env);
    assert r1.used == 2 && r1.result == r2.result;
    assert RetryAfterEmpty(1, k + 1, env) == Run(r2.result, 3, r2.fields);
  }

  const EmptyBody := Reply(Json(None, None, Some(SearchData(Items([]), 0, Nil))))
  const Offline := Refused("network error")

  /** Empty, empty, fail, fail, empty, fail, fail: a fresh call uses all seven requests. */
  lemma SevenRequests(page: nat, limit: PosInt, noise: nat -> string, formatPlayTime: nat -> string)
    ensures var outs := (j: nat) => if j == 0 || j == 1 || j == 4 then EmptyBody else Offline;
      SearchRun(0, 0, Env(page, limit, Steps(outs, noise, formatPlayTime))).used == 7
  {
    var outs := (j: nat) => if j == 0 || j == 1 || j == 4 then EmptyBody else Offline;
    var env := Env(page, limit, Steps(outs, noise, formatPlayTime));
    assert Classify(EmptyBody, noise, formatPlayTime) == Empty by {
      assert EmptyReply(EmptyBody);
      ClassifyMeaning(EmptyBody, noise, formatPlayTime);
    }
    assert Classify(Offline, noise, formatPlayTime).Err?;
    assert env.steps(0) == env.steps(1) == env.steps(4) == Empty;
    assert env.steps(2).Err? && env.steps(3).Err? && env.steps(5).Err? && env.steps(6).Err?;
    var a := SearchRun(2, 2, env);
    assert a.used == 1 && a.result.Failure?;
    var b := SearchRun(2, 3, env);
    assert b.used == 1 && b.result.Failure?;
    assert RetryAfterEmpty(2, 2, env).used == 3;
    var first := SearchRun(1, 1, env);
    assert first.used == 3 && first.result.Failure?;
    var c := SearchRun(2, 5, env);
    var d := SearchRun(2, 6, env);
    assert c.result.Failure? && d.used == 1;
    assert RetryAfterEmpty(2, 5, env).used == 3;
    var second := SearchRun(1, 4, env);
    assert second.used == 3;
    assert RetryAfterEmpty(1, 1, env).used == 7;
  }

  /** The fields after a run that wrote `written`, if any, over `before`. */
  function Written(written: Option<Fields>, before: Fields): Fields {
    if written.Some? then written.value else before
  }

  /** The adapter object: its `limit` never changes; `search` writes the other three. */
  class BiSearch {
    const limit: PosInt
    var total: nat
    var page: nat
    var allPage: nat

    constructor ()
      ensures limit == 20 && total == 0 && page == 0 && allPage == 1
    {
      limit := 20;
      total, page, allPage := 0, 0, 1;
    }

    /** The three fields `search` writes. */
    function Snapshot(): Fields
      reads this
    {
      Fields(total, page, allPage)
    }

    /**
     * `search(str, pg, limit, retryNum)`, issuing its requests to `outs(k)`,
     * `outs(k + 1)`, ...; returns how it settles and how many requests it used.
     */
    method Search(pg: nat, retryNum: nat, outs: nat -> Attempt, k: nat,
                  noise: nat -> string, formatPlayTime: nat -> string)
      returns (result: Result<SearchPage, SearchError>, used: nat)
      modifies this
      ensures var run := SearchRun(retryNum, k, Env(pg, limit, Steps(outs, noise, formatPlayTime)));
        result == run.result && used == run.used && Snapshot() == Written(run.fields, old(Snapshot()))
      decreases 3 - retryNum, 1
    {
      var n := retryNum + 1;
      if n > 3 {
        return Failure(TryMax), 0;
      }
      var step := Classify(outs(k), noise, formatPlayTime);
      assert step == Steps(outs, noise, formatPlayTime)(k);
      match step
      case Err(e) =>
        if n < 3 {
          result, used := Search(pg, n, outs, k + 1, noise, formatPlayTime);
          used := used + 1;
        } else {
          result, used := Failure(e), 1;
        }
      case Empty =>
        if n < 3 {
          result, used := SearchAfterEmpty(pg, n, outs, k + 1, noise, formatPlayTime);
        } else {
          result, used := Success(EmptyPage(limit)), 1;
        }
      case Records(list, count) =>
        total := count;
        page := pg;
        allPage := CeilDiv(total, limit);
        result, used := Success(SearchPage(list, allPage, limit, total, "bi")), 1;
    }

    /** The `.then` branch on an empty page: retry, and retry again if that rejects. */
    method SearchAfterEmpty(pg: nat, n: nat, outs: nat -> Attempt, k: nat,
                            noise: nat -> string, formatPlayTime: nat -> string)
      returns (result: Result<SearchPage, SearchError>, used: nat)
      requires n < 3
      modifies this
      ensures var run := RetryAfterEmpty(n, k, Env(pg, limit, Steps(outs, noise, formatPlayTime)));
        result == run.result && used == run.used && Snapshot() == Written(run.fields, old(Snapshot()))
      decreases 3 - n + 1, 0
    {
      ghost var env := Env(pg, limit, Steps(outs, noise, formatPlayTime));
      var first, firstUsed := Search(pg, n, outs, k, noise, formatPlayTime);
      var k2 := k + firstUsed;
      RetryAfterEmptyUnfolds(n, k, k2, env);
      StepsWellFormed(pg, limit, outs, noise, formatPlayTime);
      if first.Success? {
        result, used := first, firstUsed + 1;
      } else {
        var again, againUsed := Search(pg, n, outs, k2, noise, formatPlayTime);
        result, used := again, 1 + firstUsed + againUsed;
      }
    }
  }
}
