/**
 * state.ts: the music-search store's initial state. Every source the SDK
 * lists is registered when it is `bi` or its module has `musicSearch`; each
 * registered source gets a default `ListInfo` and a `maxPages` entry, and the
 * aggregate scope `all` comes last.
 */
module SearchStore {
  import opened Wrappers
  import opened Normalise

  /** One scope's stored results; `key` is `page__text` of the last query started (`None` is null). */
  datatype ListInfo = ListInfo(page: nat, maxPage: nat, limit: nat, total: nat, list: seq<Track>, key: Option<string>)

  const All := "all"
  const Bi := "bi"
  const DefaultSource := "wy"

  /** The defaults every scope starts with, but for its key. */
  function FreshInfo(key: Option<string>): (li: ListInfo)
    ensures li.page == 1 && li.maxPage == 0 && li.limit == 30 && li.total == 0 && li.list == []
    ensures li.key == key
  {
    ListInfo(1, 0, 30, 0, [], key)
  }

  /** An entry of `music.sources`, with whether `music[id]` has `musicSearch`. */
  datatype SdkSource = SdkSource(id: string, hasMusicSearch: bool)

  predicate Eligible(s: SdkSource) {
    s.id == Bi || s.hasMusicSearch
  }

  /** The ids registered from `sdk`, in order. */
  function Registered(sdk: seq<SdkSource>): seq<string>
    decreases |sdk|
  {
    if sdk == [] then []
    else
      var rest := Registered(sdk[..|sdk| - 1]);
      if Eligible(sdk[|sdk| - 1]) then rest + [sdk[|sdk| - 1].id] else rest
  }

  /** `listInfos` after registering `sdk`. */
  function InitialInfos(sdk: seq<SdkSource>): map<string, ListInfo>
    decreases |sdk|
  {
    if sdk == [] then map[All := FreshInfo(None)]
    else
      var rest := InitialInfos(sdk[..|sdk| - 1]);
      if Eligible(sdk[|sdk| - 1]) then rest[sdk[|sdk| - 1].id := FreshInfo(Some(""))] else rest
  }

  /** `maxPages` after registering `sdk`. */
  function InitialMaxPages(sdk: seq<SdkSource>): map<string, nat>
    decreases |sdk|
  {
    if sdk == [] then map[]
    else
      var rest := InitialMaxPages(sdk[..|sdk| - 1]);
      if Eligible(sdk[|sdk| - 1]) then rest[sdk[|sdk| - 1].id := 0] else rest
  }

  /** A source is registered exactly when some eligible SDK entry carries its id. */
  lemma {:induction false} RegisteredIff(sdk: seq<SdkSource>, id: string)
    ensures id in Registered(sdk) <==> exists i :: 0 <= i < |sdk| && Eligible(sdk[i]) && sdk[i].id == id
    decreases |sdk|
  {
    if sdk != [] {
      var init := sdk[..|sdk| - 1];
      RegisteredIff(init, id);
      if id in Registered(sdk) && id !in Registered(init) {
        assert Eligible(sdk[|sdk| - 1]) && sdk[|sdk| - 1].id == id;
      }
      if exists i :: 0 <= i < |sdk| && Eligible(sdk[i]) && sdk[i].id == id {
        var i :| 0 <= i < |sdk| && Eligible(sdk[i]) && sdk[i].id == id;
        if i < |sdk| - 1 {
          assert init[i] == sdk[i];
        }
      }
    }
  }

  /**
   * `r` holds the ids of `sdk`'s entries at the strictly increasing
   * positions `idx`, each of them eligible, and no eligible entry is skipped.
   */
  predicate FilteredAt(r: seq<string>, sdk: seq<SdkSource>, idx: seq<nat>) {
    && |idx| == |r|
    && (forall k :: 0 <= k < |idx| ==> idx[k] < |sdk| && Eligible(sdk[idx[k]]) && r[k] == sdk[idx[k]].id)
    && (forall k, l :: 0 <= k < l < |idx| ==> idx[k] < idx[l])
    && (forall i :: 0 <= i < |sdk| && Eligible(sdk[i]) ==> i in idx)
  }

  /**
   * Registration is the order-keeping filter of the SDK's list: the
   * registered ids are the eligible entries' ids, one per entry, in SDK
   * order, and nothing else.
   */
  lemma RegisteredInOrder(sdk: seq<SdkSource>)
    ensures exists idx: seq<nat> :: FilteredAt(Registered(sdk), sdk, idx)
    ensures |Registered(sdk)| <= |sdk|
    ensures (forall i :: 0 <= i < |sdk| ==> Eligible(sdk[i])) ==>
              Registered(sdk) == seq(|sdk|, i requires 0 <= i < |sdk| => sdk[i].id)
  {
    var idx := RegisteredPositions(sdk);
    RegisteredAllEligible(sdk);
  }

  /** The positions at which `Registered` picks its ids, by induction on the SDK's list. */
  lemma {:induction false} RegisteredPositions(sdk: seq<SdkSource>) returns (idx: seq<nat>)
    ensures FilteredAt(Registered(sdk), sdk, idx)
    decreases |sdk|
  {
    if sdk == [] {
      idx := [];
    } else {
      var idx0 := RegisteredPositions(sdk[..|sdk| - 1]);
      idx := FilterStep(sdk, Registered(sdk[..|sdk| - 1]), idx0);
    }
  }

  /** The length bound, and the whole list when every entry is eligible. */
  lemma {:induction false} RegisteredAllEligible(sdk: seq<SdkSource>)
    ensures |Registered(sdk)| <= |sdk|
    ensures (forall i :: 0 <= i < |sdk| ==> Eligible(sdk[i])) ==>
              Registered(sdk) == seq(|sdk|, i requires 0 <= i < |sdk| => sdk[i].id)
    decreases |sdk|
  {
    if sdk != [] {
      RegisteredAllEligible(sdk[..|sdk| - 1]);
    }
  }

  /** One more SDK entry: its position joins the filter's positions exactly when it is eligible. */
  lemma FilterStep(sdk: seq<SdkSource>, r0: seq<string>, idx0: seq<nat>) returns (idx: seq<nat>)
    requires sdk != [] && FilteredAt(r0, sdk[..|sdk| - 1], idx0)
    ensures FilteredAt(if Eligible(sdk[|sdk| - 1]) then r0 + [sdk[|sdk| - 1].id] else r0, sdk, idx)
  {
    var init := sdk[..|sdk| - 1];
    var last := |sdk| - 1;
    assert forall i :: 0 <= i < last ==> init[i] == sdk[i];
    if Eligible(sdk[last]) {
      idx := idx0 + [last];
      var r := r0 + [sdk[last].id];
      forall k | 0 <= k < |idx| ensures idx[k] < |sdk| && Eligible(sdk[idx[k]]) && r[k] == sdk[idx[k]].id {
        if k < |idx0| {
          assert idx[k] == idx0[k] && r[k] == r0[k];
        }
      }
    } else {
      idx := idx0;
    }
  }

  /**
   * Every registered source (other than one calling itself `all`) starts
   * with the default `ListInfo` and key `""`, `all` with key null, and the
   * stored scopes are exactly the registered ones and `all`.
   */
  lemma {:induction false} InitialInfosDefaults(sdk: seq<SdkSource>)
    ensures InitialInfos(sdk).Keys == (set id | id in Registered(sdk)) + {All}
    ensures forall id :: id in Registered(sdk) ==> InitialInfos(sdk)[id] == FreshInfo(Some(""))
    ensures All !in Registered(sdk) ==> InitialInfos(sdk)[All] == FreshInfo(None)
    ensures InitialMaxPages(sdk).Keys == set id | id in Registered(sdk)
    ensures forall id :: id in InitialMaxPages(sdk) ==> InitialMaxPages(sdk)[id] == 0
    decreases |sdk|
  {
    if sdk != [] {
      InitialInfosDefaults(sdk[..|sdk| - 1]);
    }
  }

  /** The store value a snapshot of `SearchState` gives. */
  datatype Store = Store(searchText: string, source: string, sources: seq<string>,
                         listInfos: map<string, ListInfo>, maxPages: map<string, nat>)

  /** The initial store, as state.ts builds it from `sdk`. */
  function InitialStore(sdk: seq<SdkSource>): (s: Store)
    ensures s.searchText == "" && s.source == DefaultSource
    ensures |s.sources| > 0 && s.sources[|s.sources| - 1] == All
    ensures s.sources[..|s.sources| - 1] == Registered(sdk)
    ensures All in s.listInfos
  {
    InitialInfosDefaults(sdk);
    Store("", DefaultSource, Registered(sdk) + [All], InitialInfos(sdk), InitialMaxPages(sdk))
  }

  /** The store object; music.ts updates `listInfos` in place. */
  class SearchState {
    var searchText: string
    var source: string
    var sources: seq<string>
    var listInfos: map<string, ListInfo>
    var maxPages: map<string, nat>

    function Snapshot(): Store
      reads this
    {
      Store(searchText, source, sources, listInfos, maxPages)
    }

    /** The loop of state.ts over `music.sources`, then `all` appended. */
    constructor (sdk: seq<SdkSource>)
      ensures Snapshot() == InitialStore(sdk)
    {
      searchText := "";
      source := DefaultSource;
      sources := [];
      listInfos := map[All := FreshInfo(None)];
      maxPages := map[];
      new;
      for i := 0 to |sdk|
        invariant searchText == "" && source == DefaultSource
        invariant sources == Registered(sdk[..i])
        invariant listInfos == InitialInfos(sdk[..i])
        invariant maxPages == InitialMaxPages(sdk[..i])
      {
        assert sdk[..i + 1][..i] == sdk[..i];
        if sdk[i].id == Bi || sdk[i].hasMusicSearch {
          sources := sources + [sdk[i].id];
          listInfos := listInfos[sdk[i].id := FreshInfo(Some(""))];
          maxPages := maxPages[sdk[i].id := 0];
        }
      }
      assert sdk[..|sdk|] == sdk;
      sources := sources + [All];
    }
  }
}
