/**
 * `search(text, page, sourceId)` of music.ts, split at its one `await`: the
 * start (the empty-text and short-circuit answers, the `page__text` key
 * written before any request, the fan-out over the sources for `all`) and the
 * completion (the staleness check against the stored key, the commit, the
 * first-page clear on failure, and `all`'s per-source fallback pages).
 * `setListInfo` and `clearListInfo` are not part of this model: they are the
 * parameters `commit` and `clear`, each given the scope's `ListInfo`.
 */
module Coordinator {
  import opened Wrappers
  import opened JsValues
  import opened Normalise
  import opened Responses
  import opened SearchStore

  /** `` `${page}__${text}` ``. */
  function KeyOf(page: nat, text: string): string {
    NatToString(page) + "__" + text
  }

  /** Keys tell queries apart: two keys are equal exactly when page and text are. */
  lemma KeyInjective(p1: nat, t1: string, p2: nat, t2: string)
    ensures KeyOf(p1, t1) == KeyOf(p2, t2) <==> p1 == p2 && t1 == t2
  {
    var a, b := NatToString(p1), NatToString(p2);
    if KeyOf(p1, t1) == KeyOf(p2, t2) {
      var k1, k2 := KeyOf(p1, t1), KeyOf(p2, t2);
      DigitsEndAtSeparator(a, t1);
      DigitsEndAtSeparator(b, t2);
      assert |a| == |b|;
      assert a == k1[..|a|] == k2[..|b|] == b;
      assert t1 == k1[|a| + 2..] == k2[|b| + 2..] == t2;
      ParseNatToString(p1);
      ParseNatToString(p2);
    }
  }

  /** How many characters come before the first '_'. */
  function LeadLength(k: string): (n: nat)
    ensures n <= |k|
  {
    if |k| == 0 || k[0] == '_' then 0 else 1 + LeadLength(k[1..])
  }

  /** In a key the page digits are exactly what comes before the first '_'. */
  lemma {:induction false} DigitsEndAtSeparator(d: string, t: string)
    requires IsDigits(d)
    ensures LeadLength(d + "__" + t) == |d|
  {
    if |d| > 0 {
      assert (d + "__" + t)[1..] == d[1..] + "__" + t;
      DigitsEndAtSeparator(d[1..], t);
    }
  }

  /** `setListInfo(results, page, text)` on the scope's `ListInfo`; the list it returns is the new `list`. */
  type Commit = (ListInfo, seq<SearchPage>, nat, string) -> ListInfo
  /** `clearListInfo(sourceId)` on the scope's `ListInfo`. */
  type Clear = ListInfo -> ListInfo

  /** A query in flight: what it asked, the key it captured, and for `all` the sources it fanned out to. */
  datatype Query = Query(text: string, page: nat, scope: string, key: string, targets: seq<string>)

  /**
   * How the start ends: answered at once, requests sent, or a TypeError for
   * a scope that has no `ListInfo` (writing the key to `undefined`).
   */
  datatype Started = Answered(list: seq<Track>) | Sent(query: Query) | NoListInfo

  /** The sources `all` fans out to: every entry of `sources` but `all`, in order. */
  function Targets(sources: seq<string>): (r: seq<string>)
    ensures forall x :: x in r <==> x in sources && x != All
    ensures |r| <= |sources|
    decreases |sources|
  {
    if sources == [] then []
    else
      var rest := Targets(sources[..|sources| - 1]);
      assert sources == sources[..|sources| - 1] + [sources[|sources| - 1]];
      if sources[|sources| - 1] == All then rest else rest + [sources[|sources| - 1]]
  }

  /** The part of `search` before its request. */
  function StartOn(s: Store, text: string, page: nat, scope: string): (Store, Started)
  {
    var key := KeyOf(page, text);
    if text == "" then (s, Answered([]))
    else if scope !in s.listInfos then (s, NoListInfo)
    else
      var li := s.listInfos[scope];
      if scope != All && li.key == Some(key) && |li.list| > 0 then (s, Answered(li.list))
    else
      var targets := if scope == All then Targets(s.sources) else [scope];
      (s.(listInfos := s.listInfos[scope := li.(key := Some(key))]), Sent(Query(text, page, scope, key, targets)))
  }

  /** Empty text answers `[]` and touches nothing. */
  lemma EmptyTextIsNoop(s: Store, page: nat, scope: string)
    ensures StartOn(s, "", page, scope) == (s, Answered([]))
  {
  }

  /** Non-empty text on a scope with no `ListInfo` fails before any request and changes nothing. */
  lemma MissingListInfo(s: Store, text: string, page: nat, scope: string)
    requires text != ""
    ensures scope !in s.listInfos <==> StartOn(s, text, page, scope) == (s, NoListInfo)
  {
  }

  /**
   * A single-source query whose key is the stored one, over a non-empty
   * stored list, answers with that list, sends nothing and changes nothing;
   * `all` never answers from the store.
   */
  lemma ShortCircuit(s: Store, text: string, page: nat, scope: string)
    requires scope in s.listInfos && text != ""
    ensures var li := s.listInfos[scope];
      scope != All && li.key == Some(KeyOf(page, text)) && |li.list| > 0 <==>
      StartOn(s, text, page, scope) == (s, Answered(li.list))
    ensures scope == All ==> StartOn(s, text, page, scope).1.Sent?
  {
  }

  /**
   * A query that sends anything has first written its key into its scope's
   * `ListInfo` and changed nothing else; `all` fans out to every other source.
   */
  lemma KeyWrittenFirst(s: Store, text: string, page: nat, scope: string)
    requires StartOn(s, text, page, scope).1.Sent?
    ensures var (s', started) := StartOn(s, text, page, scope);
      && text != "" && scope in s.listInfos
      && started.query == Query(text, page, scope, KeyOf(page, text), started.query.targets)
      && s' == s.(listInfos := s.listInfos[scope := s.listInfos[scope].(key := Some(KeyOf(page, text)))])
      && (scope == All ==> forall x :: x in started.query.targets <==> x in s.sources && x != All)
      && (scope != All ==> started.query.targets == [scope])
  {
  }

  /**
   * The end of a single-source query: a result for a query that is no
   * longer current answers `[]` and commits nothing; a current one is
   * committed. A failure clears a non-empty first page, whether or not the
   * query is current, and is passed on.
   */
  function CompleteSingle(s: Store, q: Query, outcome: Result<SearchPage, string>, commit: Commit, clear: Clear): (Store, Result<seq<Track>, string>)
    requires q.scope in s.listInfos
  {
    var li := s.listInfos[q.scope];
    match outcome
    case Success(data) =>
      if li.key != Some(q.key) then (s, Success([]))
      else
        var li' := commit(li, [data], q.page, q.text);
        (s.(listInfos := s.listInfos[q.scope := li']), Success(li'.list))
    case Failure(e) =>
      if |li.list| > 0 && q.page == 1 then (s.(listInfos := s.listInfos[q.scope := clear(li)]), Failure(e))
      else (s, Failure(e))
  }

  /** What a source that fails inside `all` contributes. */
  function FallbackPage(source: string): (p: SearchPage)
    ensures p.list == [] && p.total == 0 && p.allPage == 1 && p.limit == 30 && p.source == source
  {
    SearchPage([], 1, 30, 0, source)
  }

  /** The per-task `.catch`: each failure becomes its source's fallback page. */
  function Recover(targets: seq<string>, results: seq<Result<SearchPage, string>>): (pages: seq<SearchPage>)
    requires |targets| == |results|
    ensures |pages| == |results|
    ensures forall i :: 0 <= i < |results| ==>
      pages[i] == (if results[i].Success? then results[i].value else FallbackPage(targets[i]))
  {
    seq(|results|, i requires 0 <= i < |results| => if results[i].Success? then results[i].value else FallbackPage(targets[i]))
  }

  /**
   * The end of an `all` query, once every source has answered: it never
   * fails; a current one sets the search text and source and commits the
   * pages, a stale one answers `[]` and changes nothing.
   */
  function CompleteAll(s: Store, q: Query, results: seq<Result<SearchPage, string>>, commit: Commit): (Store, seq<Track>)
    requires All in s.listInfos && |results| == |q.targets|
  {
    var li := s.listInfos[All];
    if li.key != Some(q.key) then (s, [])
    else
      var li' := commit(li, Recover(q.targets, results), q.page, q.text);
      (s.(searchText := q.text, source := All, listInfos := s.listInfos[All := li']), li'.list)
  }

  /** A completion commits exactly when its key is still the stored one; otherwise the store is left as it was. */
  lemma CommitOnlyWhenCurrent(s: Store, q: Query, outcome: Result<SearchPage, string>, results: seq<Result<SearchPage, string>>,
                              commit: Commit, clear: Clear)
    requires q.scope in s.listInfos && All in s.listInfos && |results| == |q.targets|
    ensures outcome.Success? ==>
      var (s', r) := CompleteSingle(s, q, outcome, commit, clear);
      var li := s.listInfos[q.scope];
      if li.key == Some(q.key) then s'.listInfos[q.scope] == commit(li, [outcome.value], q.page, q.text) && r == Success(s'.listInfos[q.scope].list)
      else s' == s && r == Success([])
    ensures var (s', r) := CompleteAll(s, q, results, commit);
      var li := s.listInfos[All];
      if li.key == Some(q.key) then s'.listInfos[All] == commit(li, Recover(q.targets, results), q.page, q.text)
                                    && s'.searchText == q.text && s'.source == All && r == s'.listInfos[All].list
      else s' == s && r == []
  {
  }

  /**
   * A failed single-source query passes its error on, and clears its scope
   * exactly when the scope's stored list is non-empty and the query asked
   * for page 1.
   */
  lemma FailureHandling(s: Store, q: Query, e: string, commit: Commit, clear: Clear)
    requires q.scope in s.listInfos
    ensures var (s', r) := CompleteSingle(s, q, Failure(e), commit, clear);
      var li := s.listInfos[q.scope];
      && r == Failure(e)
      && (if |li.list| > 0 && q.page == 1 then s' == s.(listInfos := s.listInfos[q.scope := clear(li)]) else s' == s)
  {
  }

  /**
   * Only the latest query commits: after query A and then query B with a
   * different page or text start on the same scope, A's result is dropped
   * and B's is committed.
   */
  lemma LatestWins(s: Store, scope: string, ta: string, pa: nat, tb: string, pb: nat,
                   ra: SearchPage, rb: SearchPage, commit: Commit, clear: Clear)
    requires scope != All
    requires (pa, ta) != (pb, tb)
    requires StartOn(s, ta, pa, scope).1.Sent?
    requires StartOn(StartOn(s, ta, pa, scope).0, tb, pb, scope).1.Sent?
    ensures var (s1, a) := StartOn(s, ta, pa, scope);
      var (s2, b) := StartOn(s1, tb, pb, scope);
      && CompleteSingle(s2, a.query, Success(ra), commit, clear) == (s2, Success([]))
      && CompleteSingle(s2, b.query, Success(rb), commit, clear).0.listInfos[scope]
           == commit(s2.listInfos[scope], [rb], pb, tb)
  {
    KeyInjective(pa, ta, pb, tb);
  }

  /** The same for `all`: a superseded fan-out neither commits nor touches the search text and source. */
  lemma LatestWinsAll(s: Store, ta: string, pa: nat, tb: string, pb: nat,
                      resultsA: seq<Result<SearchPage, string>>, commit: Commit)
    requires All in s.listInfos
    requires (pa, ta) != (pb, tb) && ta != "" && tb != ""
    requires |resultsA| == |Targets(s.sources)|
    ensures var (s1, a) := StartOn(s, ta, pa, All);
      var (s2, b) := StartOn(s1, tb, pb, All);
      CompleteAll(s2, a.query, resultsA, commit) == (s2, [])
  {
    KeyInjective(pa, ta, pb, tb);
  }

  /**
   * `setListInfo` as the store implements it: the entry it returns keeps the
   * key the scope holds (it writes the list and the page, never the key).
   */
  ghost predicate KeepsKey(commit: Commit) {
    forall li, ps, p, t :: commit(li, ps, p, t).key == li.key
  }

  /**
   * The other order: query B starts after A and is committed first; A's
   * result, arriving late, is still dropped, so it cannot overwrite B's.
   */
  lemma LateResultDropped(s: Store, scope: string, ta: string, pa: nat, tb: string, pb: nat,
                          ra: SearchPage, rb: SearchPage, commit: Commit, clear: Clear)
    requires scope != All
    requires (pa, ta) != (pb, tb)
    requires KeepsKey(commit)
    requires StartOn(s, ta, pa, scope).1.Sent?
    requires StartOn(StartOn(s, ta, pa, scope).0, tb, pb, scope).1.Sent?
    ensures var (s1, a) := StartOn(s, ta, pa, scope);
      var (s2, b) := StartOn(s1, tb, pb, scope);
      var (s3, rB) := CompleteSingle(s2, b.query, Success(rb), commit, clear);
      && s3.listInfos[scope] == commit(s2.listInfos[scope], [rb], pb, tb)
      && rB == Success(s3.listInfos[scope].list)
      && CompleteSingle(s3, a.query, Success(ra), commit, clear) == (s3, Success([]))
  {
    KeyInjective(pa, ta, pb, tb);
  }

  /** The same for `all`: B's fan-out commits, and A's, completing after it, changes nothing. */
  lemma LateFanOutDropped(s: Store, ta: string, pa: nat, tb: string, pb: nat,
                          resultsA: seq<Result<SearchPage, string>>, resultsB: seq<Result<SearchPage, string>>, commit: Commit)
    requires All in s.listInfos
    requires (pa, ta) != (pb, tb) && ta != "" && tb != ""
    requires KeepsKey(commit)
    requires |resultsA| == |Targets(s.sources)| && |resultsB| == |Targets(s.sources)|
    ensures var (s1, a) := StartOn(s, ta, pa, All);
      var (s2, b) := StartOn(s1, tb, pb, All);
      var (s3, listB) := CompleteAll(s2, b.query, resultsB, commit);
      && s3.searchText == tb && s3.listInfos[All] == commit(s2.listInfos[All], Recover(b.query.targets, resultsB), pb, tb)
      && listB == s3.listInfos[All].list
      && CompleteAll(s3, a.query, resultsA, commit) == (s3, [])
  {
    KeyInjective(pa, ta, pb, tb);
  }

  /**
   * A stale failure still clears: query A on page 1, superseded by query B
   * before failing, clears the scope's non-empty list although B is the
   * query the scope is now waiting for.
   */
  lemma StaleFailureClears(s: Store, scope: string, ta: string, tb: string, pb: nat, e: string,
                           commit: Commit, clear: Clear)
    requires scope != All
    requires (1, ta) != (pb, tb)
    requires StartOn(s, ta, 1, scope).1.Sent?
    requires StartOn(StartOn(s, ta, 1, scope).0, tb, pb, scope).1.Sent?
    requires |s.listInfos[scope].list| > 0
    ensures var (s1, a) := StartOn(s, ta, 1, scope);
      var (s2, b) := StartOn(s1, tb, pb, scope);
      && s2.listInfos[scope].key == Some(b.query.key) != Some(a.query.key)
      && CompleteSingle(s2, a.query, Failure(e), commit, clear).0.listInfos[scope] == clear(s2.listInfos[scope])
  {
    KeyInjective(1, ta, pb, tb);
  }

  /** The loop over `state.sources` that builds one task per source, skipping `all`. */
  method FanOut(sources: seq<string>) returns (targets: seq<string>)
    ensures targets == Targets(sources)
  {
    targets := [];
    for i := 0 to |sources|
      invariant targets == Targets(sources[..i])
    {
      assert sources[..i + 1][..i] == sources[..i];
      if sources[i] == All {
        continue;
      }
      targets := targets + [sources[i]];
    }
    assert sources[..|sources|] == sources;
  }

  /** `search` up to its request, on the store object. */
  method Start(st: SearchState, text: string, page: nat, scope: string) returns (started: Started)
    modifies st
    ensures (st.Snapshot(), started) == StartOn(old(st.Snapshot()), text, page, scope)
  {
    if text == "" {
      return Answered([]);
    }
    if scope !in st.listInfos {
      return NoListInfo;
    }
    var li := st.listInfos[scope];
    var key := KeyOf(page, text);
    if scope != All && li.key == Some(key) && |li.list| > 0 {
      return Answered(li.list);
    }
    st.listInfos := st.listInfos[scope := li.(key := Some(key))];
    var targets: seq<string>;
    if scope == All {
      targets := FanOut(st.sources);
    } else {
      targets := [scope];
    }
    started := Sent(Query(text, page, scope, key, targets));
  }

  /** The single-source completion, on the store object. */
  method FinishSingle(st: SearchState, q: Query, outcome: Result<SearchPage, string>, commit: Commit, clear: Clear)
    returns (r: Result<seq<Track>, string>)
    requires q.scope in st.listInfos
    modifies st
    ensures (st.Snapshot(), r) == CompleteSingle(old(st.Snapshot()), q, outcome, commit, clear)
  {
    var li := st.listInfos[q.scope];
    match outcome {
      case Success(data) =>
        if li.key != Some(q.key) {
          return Success([]);
        }
        var updated := commit(li, [data], q.page, q.text);
        st.listInfos := st.listInfos[q.scope := updated];
        r := Success(updated.list);
      case Failure(e) =>
        if |li.list| > 0 && q.page == 1 {
          st.listInfos := st.listInfos[q.scope := clear(li)];
        }
        r := Failure(e);
    }
  }

  /** The `all` completion once every task has settled, on the store object. */
  method FinishAll(st: SearchState, q: Query, results: seq<Result<SearchPage, string>>, commit: Commit)
    returns (list: seq<Track>)
    requires All in st.listInfos && |results| == |q.targets|
    modifies st
    ensures (st.Snapshot(), list) == CompleteAll(old(st.Snapshot()), q, results, commit)
  {
    var li := st.listInfos[All];
    if li.key != Some(q.key) {
      return [];
    }
    st.searchText := q.text;
    st.source := All;
    var updated := commit(li, Recover(q.targets, results), q.page, q.text);
    st.listInfos := st.listInfos[All := updated];
    list := updated.list;
  }
}
