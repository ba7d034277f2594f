/** The listing data the CMS returns, the parameters of a listing request,
    the abstract outcome of one outbound HTTP call, and the pieces the three
    fetchers share: the upstream parameter list and the catch policy. */
module IdeasTypes {
  import opened Wrappers
  import opened Strings
  import opened JsValues
  import Query

  datatype ArticleImage = ArticleImage(id: int, mime: string, fileName: string, url: Option<string>)

  /** One CMS article. `smallImage`/`mediumImage` are `None` when the field is
      missing or is not an array. */
  datatype Article = Article(
    id: int,
    slug: string,
    title: string,
    content: string,
    publishedAt: string,
    deletedAt: Option<string>,
    createdAt: string,
    updatedAt: string,
    smallImage: Option<seq<ArticleImage>>,
    mediumImage: Option<seq<ArticleImage>>)

  datatype Links = Links(first: Option<string>, last: Option<string>, prev: Option<string>, next: Option<string>)

  /** Pagination metadata; `total` is `None` when it is not a number. */
  datatype Meta = Meta(currentPage: int, from: int, lastPage: int, perPage: int, to: int, total: Option<int>)

  /** The listing envelope; `data` is `None` when it is missing or not an array. */
  datatype IdeasResponse = IdeasResponse(data: Option<seq<Article>>, links: Option<Links>, meta: Option<Meta>)

  /** `{ data: [], meta: undefined }` */
  const EMPTY_ENVELOPE := IdeasResponse(Some([]), None, None)

  /** Request parameters; `None` is a parameter left undefined. */
  datatype IdeasParams = IdeasParams(page: Option<int>, size: Option<int>, sort: Option<string>)

  const NEWEST := "-published_at"
  const OLDEST := "published_at"
  const DEFAULT_PAGE := 1
  const DEFAULT_SIZE := 10

  /** The body of a response that is not ok. `parsed` is what `JSON.parse`
      gives for `text`; `streamFailure` is what reading the body throws, if it
      does; `rereadable` says whether `text()` still works after `json()`
      failed (under the Fetch standard a body is read once, so it does not). */
  datatype ErrorBody = ErrorBody(
    text: string,
    parsed: Result<JsonValue, Thrown>,
    streamFailure: Option<Thrown>,
    rereadable: bool)

  /** `await response.json()` on an error body. */
  function ReadJson(b: ErrorBody): Result<JsonValue, Thrown> {
    if b.streamFailure.Some? then Failure(b.streamFailure.value) else b.parsed
  }

  /** `await response.text()` as the first read of an error body. */
  function ReadText(b: ErrorBody): Result<string, Thrown> {
    if b.streamFailure.Some? then Failure(b.streamFailure.value) else Success(b.text)
  }

  /** `await response.text()` after `json()` has failed; `None` when it throws. */
  function RereadText(b: ErrorBody): Option<string> {
    if b.streamFailure.None? && b.rereadable then Some(b.text) else None
  }

  /** A response as `fetch` resolves it: ok (2xx) with the outcome of reading
      its JSON, or not ok with status text, content type and body. */
  datatype HttpResponse =
    | OkResponse(status: int, json: Result<IdeasResponse, Thrown>)
    | ErrorResponse(status: int, statusText: string, contentType: Option<string>, body: ErrorBody)

  /** One outbound call: it resolves with a response or `fetch` itself throws. */
  datatype Outcome = Responded(response: HttpResponse) | Threw(error: Thrown)

  /** The call delivered an ok response whose JSON could be read. */
  predicate Delivered(outcome: Outcome) {
    outcome.Responded? && outcome.response.OkResponse? && outcome.response.json.Success?
  }

  /** What a fetcher does for its caller: resolve with an envelope or reject. */
  datatype FetchResult = Returned(response: IdeasResponse) | Rethrown(error: Thrown)

  /** A URL object: its address without the query, and its `searchParams` in order. */
  datatype Url = Url(endpoint: string, search: seq<Query.Pair>)

  /** The parameters every listing request carries upstream, in order:
      page number, page size, both image embeds, sort. */
  function UpstreamQuery(page: string, size: string, sort: string): seq<Query.Pair> {
    [("page[number]", page), ("page[size]", size), ("append[]", "small_image"),
     ("append[]", "medium_image"), ("sort", sort)]
  }

  /** The four parameter names differ from one another. */
  lemma UpstreamKeysDistinct()
    ensures "page[number]" != "page[size]" && "page[number]" != "append[]" && "page[number]" != "sort"
    ensures "page[size]" != "append[]" && "page[size]" != "sort" && "append[]" != "sort"
  {
    assert "page[number]"[5] != "page[size]"[5];
    assert "page[number]"[0] != "append[]"[0] && "page[number]"[0] != "sort"[0];
    assert "page[size]"[0] != "append[]"[0] && "page[size]"[0] != "sort"[0];
    assert "append[]"[0] != "sort"[0];
  }

  /** Reading the list back: one value each for page number, page size and
      sort, and the two embeds in order under `append[]`. */
  lemma UpstreamLookups(page: string, size: string, sort: string)
    ensures var q := UpstreamQuery(page, size, sort);
      && Query.Get(q, "page[number]") == Some(page)
      && Query.Get(q, "page[size]") == Some(size)
      && Query.Get(q, "sort") == Some(sort)
      && Query.GetAll(q, "append[]") == ["small_image", "medium_image"]
  {
    var q4 := [("sort", sort)];
    var q3 := [("append[]", "medium_image")] + q4;
    var q2 := [("append[]", "small_image")] + q3;
    var q1 := [("page[size]", size)] + q2;
    assert UpstreamQuery(page, size, sort) == [("page[number]", page)] + q1;
    UpstreamKeysDistinct();
    Query.GetCons(("sort", sort), [], "sort");
    Query.GetCons(("sort", sort), [], "append[]");
    Query.GetCons(("append[]", "medium_image"), q4, "sort");
    Query.GetCons(("append[]", "medium_image"), q4, "append[]");
    Query.GetCons(("append[]", "small_image"), q3, "sort");
    Query.GetCons(("append[]", "small_image"), q3, "append[]");
    Query.GetCons(("page[size]", size), q2, "sort");
    Query.GetCons(("page[size]", size), q2, "append[]");
    Query.GetCons(("page[size]", size), q2, "page[size]");
    Query.GetCons(("page[number]", page), q1, "sort");
    Query.GetCons(("page[number]", page), q1, "append[]");
    Query.GetCons(("page[number]", page), q1, "page[size]");
    Query.GetCons(("page[number]", page), q1, "page[number]");
  }

  /** The same parameters as `key=value` segments. */
  lemma UpstreamSegments(page: string, size: string, sort: string)
    ensures Query.RenderPairs(UpstreamQuery(page, size, sort))
      == ["page[number]=" + page, "page[size]=" + size, "append[]=small_image",
          "append[]=medium_image", "sort=" + sort]
  {
    var pairs := UpstreamQuery(page, size, sort);
    Query.RenderFive(pairs);
    assert Query.RenderPair(pairs[0]) == "page[number]=" + page;
    assert Query.RenderPair(pairs[1]) == "page[size]=" + size;
    assert Query.RenderPair(pairs[2]) == "append[]=small_image";
    assert Query.RenderPair(pairs[3]) == "append[]=medium_image";
    assert Query.RenderPair(pairs[4]) == "sort=" + sort;
  }

  /** The message tests both fetchers use to recognise a network failure. */
  predicate IsNetworkMessage(m: string) {
    Contains(m, "Failed to fetch") || Contains(m, "NetworkError") || Contains(m, "fetch failed")
  }

  /** `Failed to fetch ideas: <statusText>`, the message of a non-ok response
      with no better one; it passes the network test whatever the status text. */
  function DefaultErrorMessage(statusText: string): (m: string)
    ensures StartsWith(m, "Failed to fetch ideas: ")
    ensures IsNetworkMessage(m)
  {
    var m := "Failed to fetch ideas: " + statusText;
    assert m[..15] == "Failed to fetch";
    StartsWithContains(m, "Failed to fetch");
    m
  }

  /** `data[first] || data[second] || fallback`, then turned into the text of
      the `Error` it is thrown in (`new Error(x)` applies `String(x)`). */
  function MessageFrom(data: JsonValue, first: string, second: string, fallback: string): string
    requires !data.JNull?
  {
    var a := Property(data, first);
    var b := Property(data, second);
    if a.Some? && Truthy(a.value) then JsToString(a.value)
    else if b.Some? && Truthy(b.value) then JsToString(b.value)
    else fallback
  }

  /** The catch block of both fetchers: network-looking `Error`s and anything
      thrown that is not an `Error` become the empty envelope; every other
      `Error` is rethrown as it is. */
  function Recover(t: Thrown): (r: FetchResult)
    ensures r.Rethrown? <==> t.JsError? && !IsNetworkMessage(t.message)
    ensures r.Rethrown? ==> r.error == t
    ensures r.Returned? ==> r.response == EMPTY_ENVELOPE
  {
    if t.JsError? && IsNetworkMessage(t.message) then Returned(EMPTY_ENVELOPE)
    else if t.JsError? then Rethrown(t)
    else Returned(EMPTY_ENVELOPE)
  }

  /** What a fetcher resolves or rejects with for one outcome of its call,
      given the way it turns a non-ok response into an error message. It
      rejects only with an `Error` whose message does not look like a network
      failure, and what it resolves with is either the body of an ok
      response, unchanged, or the empty envelope. */
  function SettleFetch(outcome: Outcome, errorMessage: (string, ErrorBody) -> string): (r: FetchResult)
    ensures r.Rethrown? ==> r.error.JsError? && !IsNetworkMessage(r.error.message)
    ensures Delivered(outcome) ==> r == Returned(outcome.response.json.value)
    ensures r.Returned? && !Delivered(outcome) ==> r.response == EMPTY_ENVELOPE
  {
    match outcome
    case Threw(t) => Recover(t)
    case Responded(OkResponse(_, json)) =>
      if json.Success? then Returned(json.value) else Recover(json.error)
    case Responded(ErrorResponse(_, statusText, _, body)) =>
      Recover(NewError(errorMessage(statusText, body)))
  }
}
