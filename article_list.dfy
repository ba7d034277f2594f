/** The article-list controller (shared/components/articles/hooks/useArticleList.ts):
    the page state with its persisted copy, the loaded articles and metadata,
    the one-time reconciliation on mount, the rule that skips the first fetch
    when server data is already shown, and the pagination window. The hook's
    effects are the methods `Mount` and `Refresh`; the HTTP call of a load is
    the `Outcome` given to it. */
module ArticleList {
  import opened Wrappers
  import opened IdeasTypes
  import opened ArticleStorage
  import IdeasClient

  /** One entry of the pagination window: a page number or the literal "...". */
  datatype PageItem = Number(n: int) | Ellipsis

  /** The numbers lo, lo+1, ..., hi in order (empty when hi < lo). */
  function Range(lo: int, hi: int): (r: seq<PageItem>)
    decreases hi - lo + 1
    ensures |r| == if hi < lo then 0 else hi - lo + 1
    ensures forall k :: 0 <= k < |r| ==> r[k] == Number(lo + k)
  {
    if hi < lo then [] else Range(lo, hi - 1) + [Number(hi)]
  }

  /** The pagination window: every page when there are at most five, and
      otherwise the first page, the last page and a few pages near the
      current one, with "..." for each run of pages left out. */
  function PageWindow(current: int, total: int): (w: seq<PageItem>)
    ensures |w| <= 7
    ensures total >= 1 ==> |w| >= 1 && w[0] == Number(1)
  {
    if total <= 5 then Range(1, total)
    else if current <= 3 then Range(1, 4) + [Ellipsis, Number(total)]
    else if current >= total - 2 then [Number(1), Ellipsis] + Range(total - 3, total)
    else [Number(1), Ellipsis] + Range(current - 1, current + 1) + [Ellipsis, Number(total)]
  }

  /** `getPageNumbers()`: the window built by pushing entries in order. */
  method PageNumbers(currentPage: int, totalPages: int) returns (pages: seq<PageItem>)
    ensures pages == PageWindow(currentPage, totalPages)
  {
    pages := [];
    if totalPages <= 5 {
      var i := 1;
      while i <= totalPages
        invariant 1 <= i && (i <= totalPages + 1 || i == 1)
        invariant pages == Range(1, i - 1)
      {
        pages := pages + [Number(i)];
        i := i + 1;
      }
    } else if currentPage <= 3 {
      var i := 1;
      while i <= 4
        invariant 1 <= i <= 5
        invariant pages == Range(1, i - 1)
      {
        pages := pages + [Number(i)];
        i := i + 1;
      }
      pages := pages + [Ellipsis];
      pages := pages + [Number(totalPages)];
    } else if currentPage >= totalPages - 2 {
      pages := pages + [Number(1)];
      pages := pages + [Ellipsis];
      var i := totalPages - 3;
      while i <= totalPages
        invariant totalPages - 3 <= i <= totalPages + 1
        invariant pages == [Number(1), Ellipsis] + Range(totalPages - 3, i - 1)
      {
        pages := pages + [Number(i)];
        i := i + 1;
      }
    } else {
      pages := pages + [Number(1)];
      pages := pages + [Ellipsis];
      var i := currentPage - 1;
      while i <= currentPage + 1
        invariant currentPage - 1 <= i <= currentPage + 2
        invariant pages == [Number(1), Ellipsis] + Range(currentPage - 1, i - 1)
      {
        pages := pages + [Number(i)];
        i := i + 1;
      }
      pages := pages + [Ellipsis];
      pages := pages + [Number(totalPages)];
    }
  }

  /** The window of more than five pages, entry by entry. */
  lemma WideWindow(current: int, total: int)
    requires total > 5
    ensures current <= 3 ==>
      PageWindow(current, total) == [Number(1), Number(2), Number(3), Number(4), Ellipsis, Number(total)]
    ensures 3 < current && current >= total - 2 ==>
      PageWindow(current, total) == [Number(1), Ellipsis, Number(total - 3), Number(total - 2), Number(total - 1), Number(total)]
    ensures 3 < current < total - 2 ==>
      PageWindow(current, total) == [Number(1), Ellipsis, Number(current - 1), Number(current), Number(current + 1), Ellipsis, Number(total)]
  {
    var w := PageWindow(current, total);
    if current <= 3 {
      assert Range(1, 4)[3] == Number(4);
    } else if current >= total - 2 {
      assert |Range(total - 3, total)| == 4;
    } else {
      assert |Range(current - 1, current + 1)| == 3;
    }
  }

  /** The window has at most seven entries; its numbers lie in 1..total and
      strictly increase from left to right. */
  lemma WindowBounds(current: int, total: int)
    ensures var w := PageWindow(current, total);
      && |w| <= 7
      && (forall k :: 0 <= k < |w| && w[k].Number? ==> 1 <= w[k].n <= total)
      && (forall i, j :: 0 <= i < j < |w| && w[i].Number? && w[j].Number? ==> w[i].n < w[j].n)
  {
    if total > 5 {
      WideWindow(current, total);
    }
  }

  /** The current page is in the window exactly when it is a page at all. */
  lemma WindowHasCurrent(current: int, total: int)
    ensures Number(current) in PageWindow(current, total) <==> 1 <= current <= total
  {
    var w := PageWindow(current, total);
    WindowBounds(current, total);
    if total > 5 {
      WideWindow(current, total);
      if 1 <= current <= total {
        if current <= 3 {
          assert w[current - 1] == Number(current);
        } else if current >= total - 2 {
          assert w[current - total + 5] == Number(current);
        } else {
          assert w[3] == Number(current);
        }
      }
    } else if 1 <= current <= total {
      assert w[current - 1] == Number(current);
    }
    if Number(current) in w {
      var k :| 0 <= k < |w| && w[k] == Number(current);
    }
  }

  /** A window of at least one page starts at page 1 and ends at the last page. */
  lemma WindowEnds(current: int, total: int)
    requires total >= 1
    ensures var w := PageWindow(current, total);
      |w| > 0 && w[0] == Number(1) && w[|w| - 1] == Number(total)
  {
    if total > 5 {
      WideWindow(current, total);
    }
  }

  /** Neighbouring numbers in the window are consecutive pages, so no page
      is shown twice. */
  lemma WindowConsecutive(current: int, total: int)
    ensures var w := PageWindow(current, total);
      forall k :: 0 <= k < |w| - 1 && w[k].Number? && w[k + 1].Number? ==> w[k + 1].n == w[k].n + 1
  {
    if total > 5 {
      WideWindow(current, total);
    }
  }

  /** Every "..." sits between two numbers with at least one page between
      them, so "..." always hides something. */
  lemma WindowGaps(current: int, total: int)
    ensures var w := PageWindow(current, total);
      forall k :: 0 <= k < |w| && w[k].Ellipsis? ==>
        0 < k < |w| - 1 && w[k - 1].Number? && w[k + 1].Number? && w[k + 1].n - w[k - 1].n > 1
  {
    var w := PageWindow(current, total);
    if total <= 5 {
      forall k | 0 <= k < |w| ensures !w[k].Ellipsis? {
      }
    } else {
      WideWindow(current, total);
    }
  }

  /** `meta?.last_page || 1` */
  function TotalPages(meta: Option<Meta>): (t: int)
    ensures t != 0
    ensures meta.Some? && meta.value.lastPage != 0 ==> t == meta.value.lastPage
    ensures meta.None? || meta.value.lastPage == 0 ==> t == 1
  {
    if meta.Some? && meta.value.lastPage != 0 then meta.value.lastPage else 1
  }

  /** `meta?.current_page || page` */
  function CurrentPage(meta: Option<Meta>, page: int): (c: int)
    ensures meta.Some? && meta.value.currentPage != 0 ==> c == meta.value.currentPage
    ensures meta.None? || meta.value.currentPage == 0 ==> c == page
  {
    if meta.Some? && meta.value.currentPage != 0 then meta.value.currentPage else page
  }

  /** `meta?.total || 0` */
  function TotalItems(meta: Option<Meta>): (n: int)
    ensures meta.Some? && meta.value.total.Some? ==> n == meta.value.total.value
    ensures meta.None? || meta.value.total.None? ==> n == 0
  {
    if meta.Some? && meta.value.total.Some? then meta.value.total.value else 0
  }

  /** The first item shown: 0 when there are no items. */
  function StartItem(totalItems: int, currentPage: int, size: int): (s: int)
    ensures totalItems <= 0 ==> s == 0
    ensures totalItems > 0 ==> s - 1 == (currentPage - 1) * size
    ensures totalItems > 0 && size >= 1 ==> (s - 1) / size == currentPage - 1 && (s - 1) % size == 0
  {
    if totalItems > 0 then
      if size >= 1 then MultipleDivides(currentPage - 1, size); (currentPage - 1) * size + 1
      else (currentPage - 1) * size + 1
    else 0
  }

  /** A multiple of `n` divides by `n` without remainder. */
  lemma MultipleDivides(k: int, n: int)
    requires n >= 1
    ensures (k * n) / n == k && (k * n) % n == 0
  {
    var q, r := (k * n) / n, (k * n) % n;
    assert k * n == q * n + r && 0 <= r < n;
    assert (k - q) * n == r;
    if k != q {
      MulAwayFromZero(k - q, n);
    }
  }

  /** A non-zero multiple of `n` is at least `n` away from zero. */
  lemma {:induction false} MulAwayFromZero(d: int, n: int)
    requires n >= 1 && d != 0
    ensures d * n >= n || d * n <= -n
    decreases if d > 0 then d else -d
  {
    if d > 1 {
      MulAwayFromZero(d - 1, n);
      assert d * n == (d - 1) * n + n;
    } else if d < -1 {
      MulAwayFromZero(d + 1, n);
      assert d * n == (d + 1) * n - n;
    }
  }

  /** The last item shown: the end of the page, cut at the item count. */
  function EndItem(totalItems: int, currentPage: int, size: int): (e: int)
    ensures e <= totalItems
    ensures e <= currentPage * size
    ensures e == currentPage * size || e == totalItems
  {
    if currentPage * size < totalItems then currentPage * size else totalItems
  }

  /** For a page that starts inside the items, "Showing X - Y of Z" is a
      non-empty range of at most one page of items. */
  lemma CountersInRange(totalItems: int, currentPage: int, size: int)
    requires currentPage >= 1 && size >= 1
    requires (currentPage - 1) * size < totalItems
    ensures var s := StartItem(totalItems, currentPage, size);
      var e := EndItem(totalItems, currentPage, size);
      1 <= s <= e <= totalItems && e - s + 1 <= size
  {
    assert (currentPage - 1) * size >= 0;
    assert currentPage * size == (currentPage - 1) * size + size;
  }

  /** Page 2 of size 10 with 25 items shows items 11 to 20. */
  lemma CountersExample()
    ensures StartItem(25, 2, 10) == 11 && EndItem(25, 2, 10) == 20
  {
  }

  /** Server data the list can show as it is: a non-empty article list with
      metadata whose total is a number. */
  predicate ValidInitialData(initialData: Option<IdeasResponse>)
    ensures ValidInitialData(initialData) ==>
      && initialData.Some? && initialData.value.meta.Some? && initialData.value.meta.value.total.Some?
      && TotalItems(initialData.value.meta) == initialData.value.meta.value.total.value
  {
    && initialData.Some?
    && initialData.value.data.Some?
    && |initialData.value.data.value| > 0
    && initialData.value.meta.Some?
    && initialData.value.meta.value.total.Some?
  }

  /** The articles and metadata a load leaves for what `fetchIdeas` settled
      with: the envelope's data and meta when data is an array, otherwise
      (and on a rejection) nothing. */
  function Loaded(r: FetchResult): (lm: (seq<Article>, Option<Meta>))
    ensures r.Rethrown? ==> lm == ([], None)
    ensures r.Returned? && r.response.data.None? ==> lm == ([], None)
    ensures r.Returned? && r.response.data.Some? ==> lm == (r.response.data.value, r.response.meta)
  {
    match r
    case Rethrown(_) => ([], None)
    case Returned(resp) => if resp.data.Some? then (resp.data.value, resp.meta) else ([], None)
  }

  /** Every field of a state, as an update. */
  function Whole(s: PageState): (p: PartialState)
    ensures forall current :: Overlay(current, p) == s
  {
    PartialState(Some(s.page), Some(s.size), Some(s.sort))
  }

  /** Whether `handlePageChange(newPage)` changes anything. */
  predicate PageChangeAllowed(newPage: int, meta: Option<Meta>) {
    newPage >= 1 && meta.Some? && newPage <= TotalPages(meta)
  }

  /** A page change is accepted only for a page in the window's range, and
      never before metadata has arrived. */
  lemma PageChangeInRange(newPage: int, meta: Option<Meta>)
    ensures !PageChangeAllowed(newPage, None)
    ensures PageChangeAllowed(newPage, meta) ==> 1 <= newPage <= TotalPages(meta) && meta.Some?
    ensures PageChangeAllowed(newPage, meta) && TotalPages(meta) >= 1 ==>
      Number(newPage) in PageWindow(newPage, TotalPages(meta))
  {
    if PageChangeAllowed(newPage, meta) {
      WindowHasCurrent(newPage, TotalPages(meta));
    }
  }

  class ListController {
    const initialData: Option<IdeasResponse>
    const storage: Storage
    var isMounted: bool
    var hasCheckedStorage: bool
    var hasUsedInitialData: bool
    var state: PageState
    var articles: seq<Article>
    var meta: Option<Meta>
    var loading: bool

    /** The mount check runs once and only after mounting; initial data is
        marked as used only by that check and only when it is valid. */
    predicate Valid()
      reads this
    {
      && (hasCheckedStorage ==> isMounted)
      && (hasUsedInitialData ==> hasCheckedStorage && ValidInitialData(initialData))
    }

    /** The first render: default state, and the server data shown when it is valid. */
    constructor (initialData: Option<IdeasResponse>, storage: Storage)
      ensures this.initialData == initialData && this.storage == storage
      ensures state == DEFAULT_STATE && !loading
      ensures !isMounted && !hasCheckedStorage && !hasUsedInitialData
      ensures ValidInitialData(initialData) ==>
        articles == initialData.value.data.value && meta == initialData.value.meta
      ensures !ValidInitialData(initialData) ==> articles == [] && meta == None
      ensures Valid()
    {
      this.initialData := initialData;
      this.storage := storage;
      isMounted := false;
      hasCheckedStorage := false;
      hasUsedInitialData := false;
      state := PageState(1, 10, "-published_at");
      if ValidInitialData(initialData) {
        articles := initialData.value.data.value;
        meta := initialData.value.meta;
      } else {
        articles := [];
        meta := None;
      }
      loading := false;
    }

    /** The mount effect. The first time, on a fresh session it marks the
        session visited and takes note of valid server data without reading
        the stored state; on a later visit it adopts the stored state. */
    method Mount()
      requires Valid()
      modifies this, storage
      ensures Valid() && isMounted && hasCheckedStorage
      ensures articles == old(articles) && meta == old(meta) && loading == old(loading)
      ensures old(hasCheckedStorage) ==>
        state == old(state) && hasUsedInitialData == old(hasUsedInitialData)
        && storage.sessionStore == old(storage.sessionStore) && storage.localStore == old(storage.localStore)
      ensures !old(hasCheckedStorage) && !(storage.hasWindow && storage.sessionReads && old(storage.Visited())) ==>
        && state == old(state)
        && hasUsedInitialData == ValidInitialData(initialData)
        && storage.sessionStore == (if storage.hasWindow && storage.sessionWrites
                                    then old(storage.sessionStore)[INITIAL_LOAD_KEY := "true"]
                                    else old(storage.sessionStore))
        && storage.localStore == old(storage.localStore)
      ensures !old(hasCheckedStorage) && storage.hasWindow && storage.sessionReads && old(storage.Visited()) ==>
        && state == old(storage.StoredState())
        && !hasUsedInitialData
        && storage.sessionStore == old(storage.sessionStore) && storage.localStore == old(storage.localStore)
    {
      isMounted := true;
      if hasCheckedStorage {
        return;
      }
      hasCheckedStorage := true;

      var initial := storage.IsInitialLoad();
      if initial {
        storage.MarkAsLoaded();
        if ValidInitialData(initialData) {
          hasUsedInitialData := true;
        }
        return;
      }

      var storedState := storage.GetArticlePageState();
      var isStateDifferent := storedState.page != state.page || storedState.size != state.size
                              || storedState.sort != state.sort;
      if isStateDifferent {
        state := storedState;
      }
    }

    /** `updateState(updates)`: merges the update into the state and writes
        the merged state to storage. */
    method UpdateState(updates: PartialState)
      requires Valid()
      modifies this, storage
      ensures Valid()
      ensures state == Overlay(old(state), updates)
      ensures storage.localStore == if storage.hasWindow && storage.localWrites
                                    then old(storage.localStore)[STORAGE_KEY := Encode(state)]
                                    else old(storage.localStore)
      ensures storage.sessionStore == old(storage.sessionStore)
      ensures articles == old(articles) && meta == old(meta) && loading == old(loading)
      ensures isMounted == old(isMounted) && hasCheckedStorage == old(hasCheckedStorage)
      ensures hasUsedInitialData == old(hasUsedInitialData)
    {
      var newState := Overlay(state, updates);
      storage.SetArticlePageState(Whole(newState));
      state := newState;
    }

    /** `handleSortChange(value)`: the new sort, back to page 1, same size. */
    method HandleSortChange(value: string)
      requires Valid()
      modifies this, storage
      ensures Valid()
      ensures state == PageState(1, old(state).size, value)
      ensures storage.localStore == if storage.hasWindow && storage.localWrites
                                    then old(storage.localStore)[STORAGE_KEY := Encode(state)]
                                    else old(storage.localStore)
      ensures storage.sessionStore == old(storage.sessionStore)
      ensures articles == old(articles) && meta == old(meta) && loading == old(loading)
      ensures isMounted == old(isMounted) && hasUsedInitialData == old(hasUsedInitialData)
      ensures hasCheckedStorage == old(hasCheckedStorage)
    {
      UpdateState(PartialState(Some(1), None, Some(value)));
    }

    /** `handlePerPageChange(value)` with the value already parsed: the new
        size, back to page 1, same sort. */
    method HandlePerPageChange(size: int)
      requires Valid()
      modifies this, storage
      ensures Valid()
      ensures state == PageState(1, size, old(state).sort)
      ensures storage.localStore == if storage.hasWindow && storage.localWrites
                                    then old(storage.localStore)[STORAGE_KEY := Encode(state)]
                                    else old(storage.localStore)
      ensures storage.sessionStore == old(storage.sessionStore)
      ensures articles == old(articles) && meta == old(meta) && loading == old(loading)
      ensures isMounted == old(isMounted) && hasUsedInitialData == old(hasUsedInitialData)
      ensures hasCheckedStorage == old(hasCheckedStorage)
    {
      UpdateState(PartialState(Some(1), Some(size), None));
    }

    /** `handlePageChange(newPage)`: moves to a page of the known range, and
        otherwise changes nothing at all. */
    method HandlePageChange(newPage: int)
      requires Valid()
      modifies this, storage
      ensures Valid()
      ensures PageChangeAllowed(newPage, old(meta)) ==> state == old(state).(page := newPage)
      ensures PageChangeAllowed(newPage, old(meta)) ==>
        storage.localStore == if storage.hasWindow && storage.localWrites
                              then old(storage.localStore)[STORAGE_KEY := Encode(state)]
                              else old(storage.localStore)
      ensures !PageChangeAllowed(newPage, old(meta)) ==>
        state == old(state) && storage.localStore == old(storage.localStore)
      ensures storage.sessionStore == old(storage.sessionStore)
      ensures articles == old(articles) && meta == old(meta) && loading == old(loading)
      ensures isMounted == old(isMounted) && hasUsedInitialData == old(hasUsedInitialData)
      ensures hasCheckedStorage == old(hasCheckedStorage)
    {
      if newPage >= 1 && meta.Some? && newPage <= (if meta.value.lastPage != 0 then meta.value.lastPage else 1) {
        UpdateState(PartialState(Some(newPage), None, None));
      }
    }

    /** The skip rule of the load effect: default state, server data used on
        a fresh session, and that data still shown with a positive total. */
    predicate SkipsLoad()
      reads this
      ensures SkipsLoad() ==> state == DEFAULT_STATE && ValidInitialData(initialData) && TotalItems(meta) > 0
    {
      && state == DEFAULT_STATE
      && hasUsedInitialData
      && ValidInitialData(initialData)
      && |articles| > 0
      && meta.Some? && meta.value.total.Some? && meta.value.total.value > 0
    }

    /** `loadArticles()` for one outcome of its call: `loading` is false
        again afterwards, and the list shows what the fetch settled with. */
    method LoadArticles(outcome: Outcome) returns (url: string)
      requires Valid()
      modifies this
      ensures Valid()
      ensures url == IdeasClient.RequestUrl(IdeasParams(Some(state.page), Some(state.size), Some(state.sort)))
      ensures (articles, meta) == Loaded(IdeasClient.Result(outcome))
      ensures !loading
      ensures state == old(state) && isMounted == old(isMounted)
      ensures hasCheckedStorage == old(hasCheckedStorage) && hasUsedInitialData == old(hasUsedInitialData)
    {
      loading := true;
      var result;
      url, result := IdeasClient.FetchIdeas(IdeasParams(Some(state.page), Some(state.size), Some(state.sort)), outcome);
      assert result == IdeasClient.Result(outcome);
      match result {
        case Returned(data) =>
          if data.data.Some? {
            articles := data.data.value;
            meta := data.meta;
          } else {
            articles := [];
            meta := None;
          }
        case Rethrown(_) =>
          articles := [];
          meta := None;
      }
      loading := false;
    }

    /** The load effect, run after mounting and after each state change:
        nothing before mounting, nothing when the skip rule holds, and
        otherwise one load (whose URL is returned). */
    method Refresh(outcome: Outcome) returns (url: Option<string>)
      requires Valid()
      modifies this
      ensures Valid()
      ensures url.Some? <==> old(isMounted) && !old(SkipsLoad())
      ensures url.Some? ==> url.value == IdeasClient.RequestUrl(IdeasParams(Some(state.page), Some(state.size), Some(state.sort)))
      ensures url.Some? ==> (articles, meta) == Loaded(IdeasClient.Result(outcome)) && !loading
      ensures url.None? ==> articles == old(articles) && meta == old(meta) && loading == old(loading)
      ensures state == old(state) && isMounted == old(isMounted)
      ensures hasCheckedStorage == old(hasCheckedStorage) && hasUsedInitialData == old(hasUsedInitialData)
    {
      if !isMounted {
        return None;
      }
      var isInitialState := state.page == 1 && state.size == 10 && state.sort == "-published_at";
      var shouldSkipLoad := isInitialState && hasUsedInitialData && ValidInitialData(initialData)
                            && |articles| > 0 && meta.Some? && meta.value.total.Some? && meta.value.total.value > 0;
      if shouldSkipLoad {
        return None;
      }
      var u := LoadArticles(outcome);
      url := Some(u);
    }

    /** `startItem` and `endItem`, the "Showing X - Y of Z" counters for the
        current metadata and state. */
    function Counters(): (c: (int, int))
      reads this
      ensures c.1 <= TotalItems(meta)
      ensures TotalItems(meta) <= 0 ==> c.0 == 0
      ensures var current := CurrentPage(meta, state.page);
        current >= 1 && state.size >= 1 && (current - 1) * state.size < TotalItems(meta) ==>
        1 <= c.0 <= c.1 && c.1 - c.0 + 1 <= state.size
    {
      var total := TotalItems(meta);
      var current := CurrentPage(meta, state.page);
      if current >= 1 && state.size >= 1 && (current - 1) * state.size < total then
        CountersInRange(total, current, state.size);
        (StartItem(total, current, state.size), EndItem(total, current, state.size))
      else
        (StartItem(total, current, state.size), EndItem(total, current, state.size))
    }

    /** `getPageNumbers()` for the current metadata and page. */
    method GetPageNumbers() returns (pages: seq<PageItem>)
      ensures pages == PageWindow(CurrentPage(meta, state.page), TotalPages(meta))
    {
      var totalPages := if meta.Some? && meta.value.lastPage != 0 then meta.value.lastPage else 1;
      var currentPage := if meta.Some? && meta.value.currentPage != 0 then meta.value.currentPage else state.page;
      pages := PageNumbers(currentPage, totalPages);
    }
  }

  /** The first page view: render, mount, run the load effect. The fetch is
      skipped exactly when this is the session's first visit and the server
      sent valid data with a positive total; on any later visit the list
      loads the stored state. */
  method FirstView(initialData: Option<IdeasResponse>, storage: Storage, outcome: Outcome)
    returns (url: Option<string>)
    modifies storage
    ensures var firstVisit := !(storage.hasWindow && storage.sessionReads && old(storage.Visited()));
      url.None? <==> firstVisit && ValidInitialData(initialData) && initialData.value.meta.value.total.value > 0
    ensures storage.hasWindow && storage.sessionReads && old(storage.Visited()) ==>
      url == Some(IdeasClient.RequestUrl(IdeasParams(Some(old(storage.StoredState()).page),
        Some(old(storage.StoredState()).size), Some(old(storage.StoredState()).sort))))
  {
    ghost var revisit := storage.hasWindow && storage.sessionReads && storage.Visited();
    ghost var stored := storage.StoredState();
    var list := new ListController(initialData, storage);
    list.Mount();
    assert list.state == if revisit then stored else DEFAULT_STATE;
    assert list.hasUsedInitialData == (!revisit && ValidInitialData(initialData));
    assert list.SkipsLoad() <==>
      !revisit && ValidInitialData(initialData) && initialData.value.meta.value.total.value > 0;
    url := list.Refresh(outcome);
  }

  /** Going back to page 1 during a first visit keeps showing page 2. The
      mark that the server data was used is never cleared, so once the state
      is the default again the skip rule holds for the page-2 articles still
      on screen: no load runs, whatever the call would have returned, and the
      page shown stays the second one. */
  method BackToFirstPageShowsSecond(initialData: Option<IdeasResponse>, storage: Storage,
                                    second: IdeasResponse, firstAgain: Outcome)
    returns (url: Option<string>, shown: seq<Article>, shownMeta: Option<Meta>)
    requires !(storage.hasWindow && storage.sessionReads && storage.Visited())
    requires ValidInitialData(initialData)
    requires initialData.value.meta.value.lastPage >= 2 && initialData.value.meta.value.total.value > 0
    requires second.data.Some? && second.data.value != [] && second.meta.Some?
    requires second.meta.value.currentPage == 2 && second.meta.value.lastPage >= 2
    requires second.meta.value.total.Some? && second.meta.value.total.value > 0
    modifies storage
    ensures url.None?
    ensures shown == second.data.value && shownMeta == second.meta
    ensures CurrentPage(shownMeta, DEFAULT_PAGE) == 2
  {
    var list := new ListController(initialData, storage);
    list.Mount();
    assert list.hasUsedInitialData;
    var skipped := list.Refresh(firstAgain);
    assert skipped.None?;

    list.HandlePageChange(2);
    assert list.state == DEFAULT_STATE.(page := 2);
    var secondUrl := list.Refresh(Responded(OkResponse(200, Success(second))));
    assert IdeasClient.Result(Responded(OkResponse(200, Success(second)))) == Returned(second);
    assert list.articles == second.data.value && list.meta == second.meta;

    list.HandlePageChange(1);
    assert list.state == DEFAULT_STATE;
    url := list.Refresh(firstAgain);
    shown, shownMeta := list.articles, list.meta;
  }
}
