/**
 * The shape of the Bilibili search API's answer, as far as the two search
 * adapters (bilibili.js and musicSearch.js) look at it, and the errors they
 * raise.
 */
module Responses {
  import opened Wrappers
  import opened JsValues
  import opened Normalise

  /**
   * `data.result`: falsy, an array of items, or some other truthy value (an
   * object), whose `vlist` is given when it is an array.
   */
  datatype ResultField = Missing | Items(items: seq<RawItem>) | Record(vlist: Option<seq<RawItem>>)

  /** `data`; a `numResults` of 0 stands for an absent one (both are falsy). */
  datatype SearchData = SearchData(result: ResultField, numResults: nat, page: Val)

  /**
   * The response body: text that is not JSON, or a parsed object (an absent
   * `code` is `undefined`; an absent `message` or `data` is falsy).
   */
  datatype Body = Unparseable | Json(code: Option<int>, message: Option<string>, data: Option<SearchData>)

  /** One HTTP request's outcome: the transport failed, or a body arrived. */
  datatype Attempt = Refused(reason: string) | Reply(body: Body)

  datatype SearchError =
    | MalformedJson            // the body text is not JSON
    | BackendCode(message: string)  // a non-zero `code`
    | NoData                   // `data` (or in bilibili.js `data.result`) missing
    | NoResult                 // `data.result` missing
    | BadShape                 // `data.result` neither an array nor a record with an array `vlist`
    | NotAnArray               // bilibili.js calls `.map` on a non-array `result`
    | Transport(reason: string)
    | TryMax                   // the retry counter was already spent

  const UnknownError := "未知错误"

  /** The error's message, as the adapters build it. */
  function Message(e: SearchError): string {
    match e
    case MalformedJson => "搜索失败：响应数据格式错误"
    case BackendCode(m) => "搜索失败：" + m
    case NoData => "搜索失败：返回数据格式错误"
    case NoResult => "搜索失败：搜索结果为空"
    case BadShape => "搜索失败：搜索结果格式错误"
    case NotAnArray => "resultData.result.map is not a function"
    case Transport(reason) => reason
    case TryMax => "try max num"
  }

  /** A page of results as the host's search layer consumes it. */
  datatype SearchPage = SearchPage(list: seq<Track>, allPage: nat, limit: nat, total: nat, source: string)

  type PosInt = n: nat | n > 0 witness 1

  /** `Math.ceil(n / d)` for a positive divisor, one `d` at a time. */
  function CeilDiv(n: nat, d: PosInt): nat
    decreases n
  {
    if n == 0 then 0 else if n <= d then 1 else 1 + CeilDiv(n - d, d)
  }

  /** `CeilDiv(n, d)` is the least `r` with `r * d >= n`. */
  lemma {:induction false} CeilDivBounds(n: nat, d: PosInt)
    ensures CeilDiv(n, d) * d >= n
    ensures CeilDiv(n, d) > 0 ==> (CeilDiv(n, d) - 1) * d < n
    decreases n
  {
    if n > d {
      var r := CeilDiv(n - d, d);
      CeilDivBounds(n - d, d);
      assert CeilDiv(n, d) * d == r * d + d;
      if r > 0 {
        assert (CeilDiv(n, d) - 1) * d == (r - 1) * d + d;
      }
    }
  }
}
