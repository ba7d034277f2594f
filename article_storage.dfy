/** The browser storage behind the article list
    (shared/components/articles/utils/articleStorageUtils.ts): a per-session
    "visited" flag and a persisted page-state record. Every storage failure is
    caught and turns into the default result or into doing nothing. */
module ArticleStorage {
  import opened Wrappers
  import opened IdeasTypes

  const STORAGE_KEY := "ideas_page_state"
  const INITIAL_LOAD_KEY := "ideas_initial_load"

  /** The list's page state. `sort` is a string: the sort handler stores
      whatever value it is given. */
  datatype PageState = PageState(page: int, size: int, sort: string)

  const DEFAULT_STATE := PageState(DEFAULT_PAGE, DEFAULT_SIZE, NEWEST)

  /** A partial update: `None` is a field that is not given. */
  datatype PartialState = PartialState(page: Option<int>, size: Option<int>, sort: Option<string>)

  /** A stored page-state entry as the reader sees it after `JSON.parse`.
      `Unreadable` is an entry that is empty, is not JSON, or is `null` (whose
      property access throws). `Parsed` holds `Number(parsed.page)` and
      `Number(parsed.size)` (`None` for NaN) and `parsed.sort` when it is a
      string. */
  datatype StoredValue =
    | Unreadable
    | Parsed(page: Option<int>, size: Option<int>, sort: Option<string>)

  /** A state the reader hands back unchanged: non-zero page and size and one
      of the two sort orders. */
  predicate Normal(s: PageState) {
    s.page != 0 && s.size != 0 && (s.sort == NEWEST || s.sort == OLDEST)
  }

  /** `Number(x) || default`: NaN and zero give the default. */
  function NumberOr(x: Option<int>, default: int): (n: int)
    requires default != 0
    ensures n != 0
    ensures x.Some? && x.value != 0 ==> n == x.value
    ensures x.None? || x.value == 0 ==> n == default
  {
    if x.Some? && x.value != 0 then x.value else default
  }

  /** The full state read from a stored entry. */
  function Coerce(v: StoredValue): (s: PageState)
    ensures Normal(s)
    ensures s.sort == OLDEST <==> v.Parsed? && v.sort == Some(OLDEST)
    ensures v.Unreadable? ==> s == DEFAULT_STATE
    ensures v.Parsed? ==> s.page == NumberOr(v.page, DEFAULT_PAGE) && s.size == NumberOr(v.size, DEFAULT_SIZE)
  {
    match v
    case Unreadable => DEFAULT_STATE
    case Parsed(page, size, sort) =>
      PageState(NumberOr(page, DEFAULT_PAGE), NumberOr(size, DEFAULT_SIZE),
                if sort == Some(OLDEST) then OLDEST else NEWEST)
  }

  /** The entry `JSON.stringify(state)` leaves, as the reader parses it back. */
  function Encode(s: PageState): StoredValue {
    Parsed(Some(s.page), Some(s.size), Some(s.sort))
  }

  /** `{ ...current, ...partial }` */
  function Overlay(current: PageState, partial: PartialState): (s: PageState)
    ensures partial.page.Some? ==> s.page == partial.page.value
    ensures partial.page.None? ==> s.page == current.page
    ensures partial.size.Some? ==> s.size == partial.size.value
    ensures partial.size.None? ==> s.size == current.size
    ensures partial.sort.Some? ==> s.sort == partial.sort.value
    ensures partial.sort.None? ==> s.sort == current.sort
  {
    PageState(
      if partial.page.Some? then partial.page.value else current.page,
      if partial.size.Some? then partial.size.value else current.size,
      if partial.sort.Some? then partial.sort.value else current.sort)
  }

  /** The state read from a local store that can be read. */
  function ReadStored(local: map<string, StoredValue>): (s: PageState)
    ensures Normal(s)
    ensures STORAGE_KEY !in local ==> s == DEFAULT_STATE
  {
    if STORAGE_KEY in local then Coerce(local[STORAGE_KEY]) else DEFAULT_STATE
  }

  /** Writing a state and reading it back gives the same state exactly when
      the state is normal. */
  lemma EncodeRoundTrip(s: PageState)
    ensures Coerce(Encode(s)) == s <==> Normal(s)
  {
  }

  /** A set followed by a get returns the stored state overlaid with the
      update, as long as the update itself is normal where it is given. */
  lemma SetThenGet(local: map<string, StoredValue>, partial: PartialState)
    requires partial.page != Some(0) && partial.size != Some(0)
    requires partial.sort.None? || partial.sort == Some(NEWEST) || partial.sort == Some(OLDEST)
    ensures var s := Overlay(ReadStored(local), partial);
      ReadStored(local[STORAGE_KEY := Encode(s)]) == s
  {
    var s := Overlay(ReadStored(local), partial);
    assert Normal(s);
    EncodeRoundTrip(s);
  }

  /** Rewriting the stored state with an empty update changes nothing the
      reader can see; it only normalises the entry. */
  lemma EmptyUpdateKeepsState(local: map<string, StoredValue>)
    ensures var s := Overlay(ReadStored(local), PartialState(None, None, None));
      ReadStored(local[STORAGE_KEY := Encode(s)]) == ReadStored(local)
  {
    SetThenGet(local, PartialState(None, None, None));
  }

  /** The browser's two stores. `hasWindow` is false during server rendering;
      the four capability flags say whether reading or writing each store
      succeeds or throws. */
  class Storage {
    const hasWindow: bool
    const sessionReads: bool
    const sessionWrites: bool
    const localReads: bool
    const localWrites: bool
    var sessionStore: map<string, string>
    var localStore: map<string, StoredValue>

    constructor (hasWindow: bool, sessionReads: bool, sessionWrites: bool, localReads: bool, localWrites: bool,
                 sessionStore: map<string, string>, localStore: map<string, StoredValue>)
      ensures this.hasWindow == hasWindow && this.sessionReads == sessionReads && this.sessionWrites == sessionWrites
      ensures this.localReads == localReads && this.localWrites == localWrites
      ensures this.sessionStore == sessionStore && this.localStore == localStore
    {
      this.hasWindow := hasWindow;
      this.sessionReads := sessionReads;
      this.sessionWrites := sessionWrites;
      this.localReads := localReads;
      this.localWrites := localWrites;
      this.sessionStore := sessionStore;
      this.localStore := localStore;
    }

    /** The session flag is set to a non-empty string. */
    predicate Visited()
      reads this
    {
      INITIAL_LOAD_KEY in sessionStore && sessionStore[INITIAL_LOAD_KEY] != ""
    }

    /** What `getArticlePageState` returns in the current state. */
    function StoredState(): (s: PageState)
      reads this
      ensures Normal(s)
      ensures !hasWindow || !localReads ==> s == DEFAULT_STATE
    {
      if hasWindow && localReads then ReadStored(localStore) else DEFAULT_STATE
    }

    /** `isInitialLoad()`: true unless the flag can be read and is set. */
    method IsInitialLoad() returns (initial: bool)
      ensures initial <==> !(hasWindow && sessionReads && Visited())
    {
      if !hasWindow {
        return true;
      }
      if !sessionReads {
        initial := true;
      } else {
        var hasVisited := if INITIAL_LOAD_KEY in sessionStore then Some(sessionStore[INITIAL_LOAD_KEY]) else None;
        initial := hasVisited.None? || hasVisited.value == "";
      }
    }

    /** `markAsLoaded()`: sets the flag to "true" when the session store can
        be written, and otherwise changes nothing. */
    method MarkAsLoaded()
      modifies this
      ensures sessionStore == if hasWindow && sessionWrites then old(sessionStore)[INITIAL_LOAD_KEY := "true"]
                              else old(sessionStore)
      ensures localStore == old(localStore)
      ensures hasWindow && sessionWrites && sessionReads ==> Visited()
    {
      if !hasWindow {
        return;
      }
      if sessionWrites {
        sessionStore := sessionStore[INITIAL_LOAD_KEY := "true"];
      }
    }

    /** `getArticlePageState()` */
    method GetArticlePageState() returns (state: PageState)
      ensures state == StoredState()
    {
      if !hasWindow {
        return DEFAULT_STATE;
      }
      state := DEFAULT_STATE;
      if localReads && STORAGE_KEY in localStore {
        var stored := localStore[STORAGE_KEY];
        if stored.Parsed? {
          var page := if stored.page.Some? && stored.page.value != 0 then stored.page.value else DEFAULT_STATE.page;
          var size := if stored.size.Some? && stored.size.value != 0 then stored.size.value else DEFAULT_STATE.size;
          var sort := if stored.sort == Some(OLDEST) then OLDEST else NEWEST;
          state := PageState(page, size, sort);
        }
      }
    }

    /** `setArticlePageState(partial)`: reads the current state, overlays the
        update and writes the result; a failed write leaves the store as it
        was. */
    method SetArticlePageState(partial: PartialState)
      modifies this
      ensures var next := Overlay(old(StoredState()), partial);
        localStore == if hasWindow && localWrites then old(localStore)[STORAGE_KEY := Encode(next)]
                      else old(localStore)
      ensures sessionStore == old(sessionStore)
      ensures hasWindow && localWrites && localReads && partial.page != Some(0) && partial.size != Some(0)
              && (partial.sort.None? || partial.sort == Some(NEWEST) || partial.sort == Some(OLDEST))
              ==> StoredState() == Overlay(old(StoredState()), partial)
    {
      if !hasWindow {
        return;
      }
      var currentState := GetArticlePageState();
      if localReads && partial.page != Some(0) && partial.size != Some(0)
         && (partial.sort.None? || partial.sort == Some(NEWEST) || partial.sort == Some(OLDEST)) {
        SetThenGet(localStore, partial);
      }
      var newState := Overlay(currentState, partial);
      if localWrites {
        localStore := localStore[STORAGE_KEY := Encode(newState)];
      }
    }

    /** `resetArticlePageState()`: writes the default state. */
    method ResetArticlePageState()
      modifies this
      ensures localStore == if hasWindow && localWrites then old(localStore)[STORAGE_KEY := Encode(DEFAULT_STATE)]
                            else old(localStore)
      ensures sessionStore == old(sessionStore)
      ensures localWrites ==> StoredState() == DEFAULT_STATE
    {
      if !hasWindow {
        return;
      }
      if localWrites {
        localStore := localStore[STORAGE_KEY := Encode(DEFAULT_STATE)];
      }
    }
  }

  /** After `markAsLoaded` the next `isInitialLoad` is false, given a session
      store that can be read and written; before it, an empty store gives
      true. */
  method MarkThenCheck(storage: Storage) returns (before: bool, after: bool)
    requires storage.hasWindow && storage.sessionReads && storage.sessionWrites
    requires INITIAL_LOAD_KEY !in storage.sessionStore
    modifies storage
    ensures before && !after
  {
    before := storage.IsInitialLoad();
    storage.MarkAsLoaded();
    after := storage.IsInitialLoad();
  }
}
