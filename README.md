# Ideas listing: a Dafny model

This project models the core of the "Ideas" listing site: a Next.js page that shows CMS articles with sorting, page sizes and pagination. It covers:

- **Fetching** (`lib/api/ideas.ts`, `lib/api/ideas-server.ts`, `app/api/ideas/route.ts`).
  - The browser fetcher asks the site's proxy for one page.
  - The server fetcher and the proxy call the CMS directly.
  - Each builds the same five-parameter query and turns failures into an error or into an empty listing.
  - The HTTP call is an `Outcome` value: an ok response with the result of reading its JSON, a non-ok response with status text, content type and body, or a thrown value.
- **The list controller** (`useArticleList.ts`). A class holds the page state, the articles, the metadata and the loading flag. It covers:
  - mount reconciliation with stored state;
  - the skip-first-fetch rule;
  - the sort, page-size and page handlers;
  - the "Showing X - Y of Z" counters;
  - the pagination window.
- **Storage** (`articleStorageUtils.ts`). A class holds two maps, standing in for session and local storage. Flags say whether each store can be read and written.
- **Pure helpers**: the article image URL, the banner helpers and the CMS-to-banner conversion. The header is a class for its scroll and menu state, plus the pure active-link test.

Modules:

| file | module | contents |
|---|---|---|
| `wrappers.dfy` | `Wrappers` | `Option`, `Result` |
| `strings.dfy` | `Strings` | `startsWith`, `includes`, `trim`, number printing, `join`/`split` |
| `js_values.dfy` | `JsValues` | JSON values, thrown values, `||` truthiness, `String(x)`, `JSON.stringify` |
| `query.dfy` | `Query` | query strings as ordered pairs: rendering, parsing, `get`/`getAll` |
| `ideas_types.dfy` | `IdeasTypes` | CMS records, call outcomes, the shared upstream parameter list and catch policy |
| `ideas_client.dfy` | `IdeasClient` | `fetchIdeas` |
| `ideas_server.dfy` | `IdeasServer` | `fetchIdeasServer` |
| `ideas_route.dfy` | `IdeasRoute` | the `GET /api/ideas` proxy |
| `ideas_flow.dfy` | `IdeasFlow` | browser fetcher and proxy composed |
| `article_storage.dfy` | `ArticleStorage` | storage utilities, `class Storage` |
| `article_list.dfy` | `ArticleList` | pagination, counters, `class ListController` |
| `article_image.dfy` | `ArticleImage` | `getArticleImageUrl` |
| `banner.dfy` | `Banner` | banner helpers and the CMS conversion |
| `header.dfy` | `Header` | `isActive`, `class HeaderState` |

Behaviour the proofs bring out:

- **The browser never sees a proxy error for a non-ok CMS response.** The proxy's error body carries `error: "Failed to fetch ideas"`. When the client's body has no `message`, it takes `error` as its message. That message contains "Failed to fetch", which the client treats as a network failure. So every non-ok CMS status reaches the list as an empty listing (`IdeasFlow.SettleCases`).
- **The proxy's own network failure is also silent.** Node reports it as "fetch failed", which the client's network test also matches (`IdeasFlow.ProxyNetworkFailureIsSilent`).
- **The client's second JSON parse cannot succeed.** When the client's `json()` fails, it reads the body again as text and parses that text. The parse fails on the same text that `json()` already rejected. So the message is a JSON field, the raw text, or the default (`IdeasClient.TextReparseNeverUsed`).
- **The text fallback depends on re-reading the body.** It runs only when the body can still be read after `json()` failed. Under the Fetch standard a body is read once, so the message stays the default and the call resolves with the empty envelope (`IdeasClient.SingleReadBodyGivesEmptyEnvelope`).
- **The two fetchers read the error fields in opposite orders.** They differ only when both `message` and `error` are usable (`IdeasServer.PrecedenceReversed`).
- **Going back to page 1 during a first visit keeps page 2 on screen.** The mark that the server data was used is set at mount and never cleared. Once the state is the default again, the skip rule holds for the page-2 articles still shown, so no load runs and the current page still reads 2 (`ArticleList.BackToFirstPageShowsSecond`).

## Model

| member | source | states |
|---|---|---|
| IdeasTypes.UpstreamLookups | lib/api/ideas-server.ts:58-62 | the parameter list reads back as the given page number, page size and sort, with `small_image` then `medium_image` under `append[]` |
| IdeasTypes.UpstreamSegments | lib/api/ideas.ts:51-56 | the five parameters render as the five `key=value` parts the client pushes, in push order |
| IdeasTypes.DefaultErrorMessage | lib/api/ideas.ts:71 | the default non-ok message starts with "Failed to fetch ideas: ", so it always passes the network test |
| IdeasTypes.Recover | lib/api/ideas.ts:96-111 | a thrown value is rethrown unchanged iff it is an `Error` whose message has none of the three network substrings; otherwise the result is `{data: [], meta: undefined}` |
| IdeasClient.RequestUrl | lib/api/ideas.ts:58 | the request URL starts with `/api/ideas?` |
| IdeasTypes.SettleFetch | lib/api/ideas.ts:60-111 | whatever message rule a fetcher uses for non-ok responses: it rejects only with a non-network `Error`, resolves with an ok body unchanged, and every other resolution is the empty envelope (both fetchers settle through it) |
| IdeasClient.BuildRequestUrl | lib/api/ideas.ts:49-58 | pushing the five parts and joining them with `&` gives the proxy path plus the rendered default-filled parameter list |
| IdeasClient.NonOkMessage | lib/api/ideas.ts:70-90 | the reassigned `errorMessage` equals the message-precedence specification: JSON `message`, then `error`, then the text fallback, then the default |
| IdeasClient.FetchIdeas | lib/api/ideas.ts:46-112 | the URL and the settled result agree with `RequestUrl` and `Result` for every outcome |
| IdeasClient.TextReparseNeverUsed | lib/api/ideas.ts:75-86 | after a failed or null `json()`, the message is the raw text if non-empty and readable, else the default; the re-parse branch is never taken |
| IdeasClient.DefaultRequest | lib/api/ideas.ts:49 | missing parameters give page 1, size 10, sort `-published_at` |
| IdeasClient.NoMessageGivesEmptyEnvelope | lib/api/ideas.ts:71-74 | a JSON error body without a usable `message` or `error` resolves with the empty envelope |
| IdeasClient.SingleReadBodyGivesEmptyEnvelope | lib/api/ideas.ts:75-90 | when `json()` fails on a body that cannot be read again, the call resolves with the empty envelope |
| IdeasClient.PlainTextMessage | lib/api/ideas.ts:77-85 | a readable non-JSON error text becomes the message, and the call rejects iff that text has no network substring |
| IdeasClient.MessageBeforeError | lib/api/ideas.ts:74 | a truthy `message` wins over `error`; `error` is used when `message` is missing or falsy |
| IdeasServer.ApiBase | lib/api/ideas-server.ts:52-54 | an unset or empty base variable gives the default CMS host; a non-empty one is used as is |
| IdeasServer.BuildUpstreamUrl | lib/api/ideas-server.ts:49-62 | five in-place appends give `<base>/api/ideas` with the same default-filled parameter list as the client |
| IdeasServer.NonOkMessage | lib/api/ideas-server.ts:74-90 | the reassigned message is JSON `error`, then `message`, then the default; a non-JSON body leaves the default |
| IdeasServer.FetchIdeasServer | lib/api/ideas-server.ts:46-111 | URL and settled result agree with `Endpoint`, the parameter list and `Result` for every outcome |
| IdeasServer.TextBodyIgnored | lib/api/ideas-server.ts:82-89 | a non-JSON error body always resolves with the empty envelope |
| IdeasServer.PrecedenceReversed | lib/api/ideas-server.ts:78 | server and client agree unless both fields are usable; then the server reports `error` and the client `message` |
| IdeasRoute.GetOr | app/api/ideas/route.ts:10-12 | `get(key) \|\| fallback`: a missing or empty value gives the fallback, any other value is kept |
| IdeasRoute.ReadParams | app/api/ideas/route.ts:9-17 | page, size and sort are never empty, and each comes from the bracketed name, the plain name or the default |
| IdeasRoute.ReadErrorData | app/api/ideas/route.ts:36-47 | JSON data iff the content type includes `application/json` and the JSON read succeeds, and then it is the parsed value; any other content type with a readable body gives the text; a failed read of either kind gives "Unable to parse error response: " followed by the error |
| IdeasRoute.Details | app/api/ideas/route.ts:55 | a text or a JSON string is forwarded as the string itself, unquoted; any other JSON value as its JSON text |
| IdeasRoute.ThrownMessage | app/api/ideas/route.ts:65-70 | an `Error` gives its message, a thrown string itself, anything else "Unknown error occurred" |
| IdeasRoute.UnreadableBodyDescribed | app/api/ideas/route.ts:39-55 | an error body whose read throws is forwarded, for any content type, as "Unable to parse error response: " followed by the error |
| IdeasRoute.ReplyFor | app/api/ideas/route.ts:25-80 | passthrough iff the CMS delivered readable ok JSON (status 200, data unchanged); non-ok keeps its status with the failure envelope; thrown or unreadable-ok gives 500 with the thrown message |
| IdeasRoute.BuildUpstreamUrl | app/api/ideas/route.ts:6-23 | five in-place appends to the fixed CMS endpoint give page number, page size, both image embeds and sort, in that order |
| IdeasRoute.ErrorDetails | app/api/ideas/route.ts:36-55 | `details` is the text, the JSON string, or the stringified JSON, as `Details(ReadErrorData(..))` specifies |
| IdeasRoute.HandleGet | app/api/ideas/route.ts:3-81 | the upstream URL carries the read parameters, and the reply is `ReplyFor` of the outcome |
| IdeasRoute.NoParametersDefaults | app/api/ideas/route.ts:9-17 | a request without parameters reads as page "1", size "10", sort "-published_at" |
| IdeasRoute.BracketedNameFirst | app/api/ideas/route.ts:9-16 | for any query, a non-empty `page[number]` is the page and a non-empty `page[size]` the size, whatever the flat names say |
| IdeasRoute.BracketedAfterFlat | app/api/ideas/route.ts:10-11 | `?page=<flat>&page[number]=<p>` reads page `p` although the flat name comes first |
| IdeasRoute.EmptyValueFallsThrough | app/api/ideas/route.ts:9-17 | for any query, a missing or empty `page[number]` falls through to a non-empty `page`, and otherwise to "1"; likewise `page[size]` to `size`, then "10"; a missing or empty `sort` gives "-published_at" |
| IdeasRoute.EmptyBracketedExample | app/api/ideas/route.ts:10-12 | `?page[number]=&page=<flat>` reads the flat value, or "1" when it is empty too |
| IdeasRoute.DetailsOfBodies | app/api/ideas/route.ts:40-55 | a JSON string body is forwarded as the string, other JSON as its JSON text, and a text body as itself |
| IdeasFlow.AsResponse | app/api/ideas/route.ts:51-62 | the proxy's reply seen by the browser is ok iff it is a passthrough, with the same status |
| IdeasFlow.FailureJson | app/api/ideas/route.ts:51-58 | the proxy's non-ok and 500 replies are JSON objects |
| IdeasFlow.UpstreamFailureMessage | app/api/ideas/route.ts:51-58 | the browser reads the proxy's non-ok reply as the message "Failed to fetch ideas", its `error` field, since it has no `message` |
| IdeasFlow.InternalFailureMessage | app/api/ideas/route.ts:72-79 | the browser reads the proxy's 500 reply as its `message`, or its `error` field when the message is empty |
| IdeasFlow.InternalError | lib/api/ideas.ts:74 | the browser's error for a proxy 500 carries the proxy's message, or "Internal server error" when that is empty |
| IdeasFlow.SettleCases | lib/api/ideas.ts:70-111 | through the proxy: delivered data arrives unchanged; every non-ok CMS status arrives as the empty envelope; a proxy failure is recovered from its message |
| IdeasFlow.ProxyNetworkFailureIsSilent | app/api/ideas/route.ts:63-80 | a proxy whose CMS call fails with "fetch failed" makes the browser fetcher resolve with the empty envelope |
| IdeasFlow.ProxyReadsRequest | app/api/ideas/route.ts:9-17 | the proxy reads the client's query back as the same page, size and sort (an empty sort becomes the default) |
| IdeasFlow.ReadUpstream | app/api/ideas/route.ts:9-17 | reading the upstream parameter list gives back its page, size and sort |
| ArticleStorage.NumberOr | shared/components/articles/utils/articleStorageUtils.ts:52-53 | `Number(x) \|\| default` keeps non-zero numbers and gives the default for zero or NaN; the result is never zero |
| ArticleStorage.Coerce | shared/components/articles/utils/articleStorageUtils.ts:47-55 | a read state is normal; its sort is "published_at" iff the stored sort is exactly that; an unreadable entry gives the default state |
| ArticleStorage.Overlay | shared/components/articles/utils/articleStorageUtils.ts:71-74 | given fields replace current ones; absent fields keep the current value |
| ArticleStorage.ReadStored | shared/components/articles/utils/articleStorageUtils.ts:47-61 | the state read from storage is normal; with no entry it is the default state |
| ArticleStorage.EncodeRoundTrip | shared/components/articles/utils/articleStorageUtils.ts:42-80 | writing then reading a state gives it back iff page and size are non-zero and the sort is one of the two orders |
| ArticleStorage.SetThenGet | shared/components/articles/utils/articleStorageUtils.ts:64-80 | after a set with a normal update, a get returns the previous state overlaid with the update |
| ArticleStorage.EmptyUpdateKeepsState | shared/components/articles/utils/articleStorageUtils.ts:64-80 | a set with nothing given leaves what a get returns unchanged |
| ArticleStorage.Storage.StoredState | shared/components/articles/utils/articleStorageUtils.ts:42-61 | outside a browser or when local storage cannot be read, the state is the default |
| ArticleStorage.Storage.IsInitialLoad | shared/components/articles/utils/articleStorageUtils.ts:16-28 | true unless a browser can read a non-empty visited flag |
| ArticleStorage.Storage.MarkAsLoaded | shared/components/articles/utils/articleStorageUtils.ts:30-40 | sets the flag to "true" when writable and otherwise changes nothing; local storage is untouched |
| ArticleStorage.Storage.GetArticlePageState | shared/components/articles/utils/articleStorageUtils.ts:42-62 | returns the coerced stored state, or the default when there is no window, no entry or no read access |
| ArticleStorage.Storage.SetArticlePageState | shared/components/articles/utils/articleStorageUtils.ts:64-80 | writes the current state overlaid with the update when writable; a failed write changes nothing; a later get returns the overlay |
| ArticleStorage.Storage.ResetArticlePageState | shared/components/articles/utils/articleStorageUtils.ts:82-92 | writes the default state when writable, after which a get returns the default |
| ArticleStorage.MarkThenCheck | shared/components/articles/utils/articleStorageUtils.ts:16-40 | on a working store, the initial-load check is true before `markAsLoaded` and false after |
| ArticleList.Range | shared/components/articles/hooks/useArticleList.ts:218-220 | the numbers `lo..hi` in order |
| ArticleList.PageNumbers | shared/components/articles/hooks/useArticleList.ts:214-246 | the pushes build exactly the window: all pages up to five, else one of the three shapes around the current page |
| ArticleList.WideWindow | shared/components/articles/hooks/useArticleList.ts:222-242 | with more than five pages the window is `[1,2,3,4,…,T]`, `[1,…,T-3..T]` or `[1,…,c-1,c,c+1,…,T]` |
| ArticleList.WindowBounds | shared/components/articles/hooks/useArticleList.ts:214-246 | at most seven entries; numbers within 1..T and strictly increasing |
| ArticleList.WindowHasCurrent | shared/components/articles/hooks/useArticleList.ts:214-246 | the current page is in the window iff 1 ≤ current ≤ T |
| ArticleList.WindowEnds | shared/components/articles/hooks/useArticleList.ts:214-246 | with at least one page the window starts with page 1 and ends with page T |
| ArticleList.WindowConsecutive | shared/components/articles/hooks/useArticleList.ts:214-246 | neighbouring numbers are consecutive pages |
| ArticleList.WindowGaps | shared/components/articles/hooks/useArticleList.ts:226-240 | every "..." sits between two numbers with at least one page hidden between them |
| ArticleList.PageWindow | shared/components/articles/hooks/useArticleList.ts:214-246 | the window has at most seven entries and, with at least one page, starts at page 1 |
| ArticleList.TotalPages | shared/components/articles/hooks/useArticleList.ts:208 | `last_page \|\| 1`: the meta's last page when there is meta and it is non-zero, otherwise 1 |
| ArticleList.CurrentPage | shared/components/articles/hooks/useArticleList.ts:209 | `current_page \|\| page`: the meta's current page when there is meta and it is non-zero, otherwise the state's page |
| ArticleList.TotalItems | shared/components/articles/hooks/useArticleList.ts:210 | `total \|\| 0`: the meta's total when it is a number, otherwise 0 |
| ArticleList.StartItem | shared/components/articles/hooks/useArticleList.ts:211 | 0 when there are no items; otherwise the first item of the page: start - 1 is the page index times the size, so for a positive size (start - 1) divided by size is the page index, with no remainder |
| ArticleList.ValidInitialData | shared/components/articles/hooks/useArticleList.ts:40-45 | valid server data has a meta whose total is what the counters read |
| ArticleList.ListController.Counters | shared/components/articles/hooks/useArticleList.ts:208-212 | the counters for the controller's meta and state: the end never exceeds `total \|\| 0`, the start is 0 without items, and a page that starts inside the items shows 1 ≤ start ≤ end with at most one page of items |
| ArticleList.ListController.SkipsLoad | shared/components/articles/hooks/useArticleList.ts:127-137 | a skipped load means the default state, valid server data and a positive item count |
| ArticleList.EndItem | shared/components/articles/hooks/useArticleList.ts:212 | the last item shown is at most the total and at most the page end |
| ArticleList.CountersInRange | shared/components/articles/hooks/useArticleList.ts:208-212 | for a page starting inside the items: 1 ≤ start ≤ end ≤ total, with at most one page of items |
| ArticleList.CountersExample | shared/components/articles/hooks/useArticleList.ts:211-212 | page 2, size 10, total 25 shows 11 to 20 |
| ArticleList.Loaded | shared/components/articles/hooks/useArticleList.ts:107-118 | an array body is shown with its meta; a non-array body or a rejection shows nothing |
| ArticleList.Whole | shared/components/articles/hooks/useArticleList.ts:97-98 | the full merged state, given as an update, overwrites any stored state |
| ArticleList.PageChangeInRange | shared/components/articles/hooks/useArticleList.ts:161-165 | no page change is accepted without meta; an accepted page lies in 1..(last_page \|\| 1) and appears in its window |
| ArticleList.ListController.constructor | shared/components/articles/hooks/useArticleList.ts:36-63 | default state, not loading; valid server data is shown, otherwise nothing |
| ArticleList.ListController.Mount | shared/components/articles/hooks/useArticleList.ts:67-93 | runs once; a fresh session marks the flag and notes valid data without reading state; a later visit adopts the stored state |
| ArticleList.ListController.UpdateState | shared/components/articles/hooks/useArticleList.ts:95-101 | the state becomes the merge, and exactly the merged state is persisted |
| ArticleList.ListController.HandleSortChange | shared/components/articles/hooks/useArticleList.ts:147-152 | new sort, page 1, size kept, and persisted |
| ArticleList.ListController.HandlePerPageChange | shared/components/articles/hooks/useArticleList.ts:154-159 | new size, page 1, sort kept, and persisted |
| ArticleList.ListController.HandlePageChange | shared/components/articles/hooks/useArticleList.ts:161-165 | moves to the page iff meta is present and 1 ≤ n ≤ (last_page \|\| 1); otherwise state and storage are unchanged |
| ArticleList.ListController.LoadArticles | shared/components/articles/hooks/useArticleList.ts:103-122 | requests the current state's URL; shows what the fetch settled with; `loading` is false afterwards |
| ArticleList.ListController.Refresh | shared/components/articles/hooks/useArticleList.ts:124-145 | loads iff mounted and the skip rule fails; a skipped run changes nothing |
| ArticleList.ListController.GetPageNumbers | shared/components/articles/hooks/useArticleList.ts:208-246 | the window for `current_page \|\| page` and `last_page \|\| 1` |
| ArticleList.FirstView | shared/components/articles/hooks/useArticleList.ts:67-145 | on first view the fetch is skipped iff the session is fresh and the server data is valid with total > 0; a revisit loads the stored state |
| ArticleList.BackToFirstPageShowsSecond | shared/components/articles/hooks/useArticleList.ts:67-165 | on a fresh session with valid server data: page 2, then back to page 1, ends with no load and the page-2 articles and meta still shown, so the current page reads 2 |
| ArticleImage.AssetsBase | shared/components/articles/utils/articleImageUtils.ts:8-9 | an unset or empty variable gives the default assets host |
| ArticleImage.ResolveUrl | shared/components/articles/utils/articleImageUtils.ts:23-36 | none iff the trimmed URL is empty; an absolute URL is kept; otherwise the base is joined with exactly one "/" added when missing |
| ArticleImage.UrlFromImages | shared/components/articles/utils/articleImageUtils.ts:11-37 | only the first image counts; a missing or empty list, or a missing URL, gives none; a result is never empty |
| ArticleImage.ArticleImageUrl | shared/components/articles/utils/articleImageUtils.ts:39-49 | medium wins when it yields a URL; small is used otherwise; none iff neither yields one |
| ArticleImage.ResolvedIsAbsolute | shared/components/articles/utils/articleImageUtils.ts:28-36 | with an absolute base every resolved URL is absolute |
| ArticleImage.ResolveIdempotent | shared/components/articles/utils/articleImageUtils.ts:23-36 | with an absolute base, resolving a resolved URL gives it back |
| Banner.HeightKey | shared/components/banner/utils/bannerUtils.ts:1-7 | every banner height names a key of the height classes |
| Banner.HeightClassKeys | shared/components/banner/utils/bannerUtils.ts:1-5 | the height classes have exactly the keys small, medium and large, one per height |
| Banner.ImageSource | shared/components/banner/utils/bannerUtils.ts:9-13 | a string image is its own source; an object gives its `src` |
| Banner.ImageAlt | shared/components/banner/utils/bannerUtils.ts:15-21 | a non-empty `imageAlt` wins; else the object's own alt, possibly empty, or "Banner image" for a string |
| Banner.EmptyImageAltIgnored | shared/components/banner/utils/bannerUtils.ts:19 | an empty `imageAlt` is treated as absent |
| Banner.ConvertCmsData | shared/components/banner/types.ts:37-50 | src is the CMS url; alt is the CMS alt or "Banner image"; height defaults to large; `imageAlt` is the raw alt; title and subtitle are copied |
| Banner.ConvertedBannerRenders | shared/components/banner/types.ts:37-50 | a converted banner renders the CMS url with the CMS alt or "Banner image", never an empty alt |
| Header.RootActiveOnlyAtRoot | shared/components/header/Header.tsx:39-41 | the root link is active iff the path is exactly "/" |
| Header.SubpathActive | shared/components/header/Header.tsx:42 | any other link is active on every path it prefixes |
| Header.ActiveLinksNested | shared/components/header/Header.tsx:38-43 | two active non-root links are prefixes of one another |
| Header.HeaderState.constructor | shared/components/header/Header.tsx:14-17 | at the top, visible, not scrolled, menu closed |
| Header.HeaderState.HandleScroll | shared/components/header/Header.tsx:20-32 | shown on scroll up or below 10; hidden on scroll down past 100; otherwise unchanged; scrolled iff past 10; the header is hidden only past 100 |
| Header.HeaderState.ToggleMenu | shared/components/header/Header.tsx:101 | the menu flips; the scroll state is unchanged |
| Header.HeaderState.HandleLinkClick | shared/components/header/Header.tsx:45-47 | the menu is closed |
| Header.HeaderState.CloseOverlay | shared/components/header/Header.tsx:122 | the menu is closed |
| Header.HeaderState.LinkActive | shared/components/header/Header.tsx:38-43 | the link to `href` is active by the root-exact or prefix rule |
| Header.ScrollToTop | shared/components/header/Header.tsx:23-29 | scrolling to 0 from any state shows the unscrolled header |

## Left out

- **External effects.**
  - `fetch`, `NextResponse`, `process.env` and `console.*` are not modelled, nor are the request's `cache` and header options.
  - Each HTTP call is an `Outcome` parameter and each environment variable an `Option<string>` parameter. Logging has no effect on results.
- **Fetch timeouts.** They do not exist in the route. The only error statuses there are the forwarded one and 500.
- **Effects and scheduling.**
  - The scroll-into-view effect (useArticleList.ts lines 167-206) depends on timers and layout.
  - The header's event-listener wiring is not modelled.
  - React's scheduling is reduced to explicit calls: `Mount`, then `Refresh` after each change.
  - Fetches resolving out of order are not modelled; the code has no guard against that race.
- ArticleList.ListController.LoadArticles: the await is collapsed, so the moment where `loading` is true is not observable.
- **JSON.** Parsing is abstracted. An error body carries its text and the result of parsing it. A success body is already typed, and a stored page-state entry is already parsed.
- IdeasFlow.AsResponse: assumes `JSON.parse(JSON.stringify(v))` gives `v` back for the proxy's envelopes.
- JsValues.Stringify: does not escape characters inside strings.
- **Number conversions.**
  - The model has integers only. `Number(..)` on the stored record is `Option<int>`, with `None` for NaN.
  - ArticleList.ListController.HandlePerPageChange: takes the page size already parsed, so a NaN from `parseInt` is not modelled. The code does not restrict the size to the offered options (10/20/50), and neither does the model.
  - Float scroll positions are integers.
- **URL encoding.**
  - Query.ParseRender: percent-encoding and `+` decoding are not modelled, so the round trip is stated for keys and values without `&`, `%`, `+` (and `=` in keys).
  - IdeasFlow.ProxyReadsRequest: holds only for a sort value without those characters, for the same reason.
- **URL validity.** A malformed base URL makes `new URL(..)` throw; this is not modelled.
- IdeasRoute.ReplyFor: the `details` field of a 500 (the thrown `Error`'s stack) is not modelled.
- **Null elements.** A `null` first element in an image array and a `null` array element in the article list are not modelled; arrays hold records.
- **Presentational parts.** The rendering components, the date formatting helper and the banner parallax hook are not part of this model.
