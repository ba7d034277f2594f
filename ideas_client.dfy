/** The browser-side fetcher `fetchIdeas` (lib/api/ideas.ts): it asks the
    site's own `/api/ideas` proxy for one page and turns failures into either
    an empty envelope or a rejection. The HTTP call is the `Outcome` given. */
module IdeasClient {
  import opened Wrappers
  import opened Strings
  import opened JsValues
  import opened IdeasTypes
  import Query

  /** The parameters after destructuring defaults (only `undefined` is replaced). */
  function Page(params: IdeasParams): int {
    if params.page.Some? then params.page.value else DEFAULT_PAGE
  }

  function Size(params: IdeasParams): int {
    if params.size.Some? then params.size.value else DEFAULT_SIZE
  }

  function Sort(params: IdeasParams): string {
    if params.sort.Some? then params.sort.value else NEWEST
  }

  /** The pairs of the request's query string. */
  function RequestQuery(params: IdeasParams): seq<Query.Pair> {
    UpstreamQuery(IntToString(Page(params)), IntToString(Size(params)), Sort(params))
  }

  /** The request URL: the proxy path and the rendered query. */
  function RequestUrl(params: IdeasParams): (url: string)
    ensures StartsWith(url, "/api/ideas?")
  {
    "/api/ideas?" + Query.Render(RequestQuery(params))
  }

  /** The message of a non-ok response: the JSON body's `message`, then its
      `error`, then the default; when `json()` fails (or the body is `null`) the
      body is read again as text, and a non-empty text either supplies the same
      two fields, when it parses, or is the message itself. */
  function ErrorMessage(statusText: string, body: ErrorBody): string {
    var fallback := DefaultErrorMessage(statusText);
    var read := ReadJson(body);
    if read.Success? && !read.value.JNull? then MessageFrom(read.value, "message", "error", fallback)
    else TextMessage(fallback, body)
  }

  /** The inner fallback of `ErrorMessage`, from the text read of the body. */
  function TextMessage(fallback: string, body: ErrorBody): string {
    match RereadText(body)
    case None => fallback
    case Some(text) =>
      if text == "" then fallback
      else if body.parsed.Success? && !body.parsed.value.JNull? then
        MessageFrom(body.parsed.value, "message", "error", fallback)
      else text
  }

  /** What `fetchIdeas` resolves or rejects with for one outcome of its call. */
  function Result(outcome: Outcome): FetchResult {
    SettleFetch(outcome, ErrorMessage)
  }

  /** The query-building half of `fetchIdeas`: the five parts are pushed in
      order and joined behind the proxy path. */
  method BuildRequestUrl(params: IdeasParams) returns (url: string)
    ensures url == RequestUrl(params)
  {
    var page := if params.page.Some? then params.page.value else DEFAULT_PAGE;
    var size := if params.size.Some? then params.size.value else DEFAULT_SIZE;
    var sort := if params.sort.Some? then params.sort.value else NEWEST;

    var queryParams: seq<string> := [];
    queryParams := queryParams + ["page[number]=" + IntToString(page)];
    queryParams := queryParams + ["page[size]=" + IntToString(size)];
    queryParams := queryParams + ["append[]=small_image"];
    queryParams := queryParams + ["append[]=medium_image"];
    queryParams := queryParams + ["sort=" + sort];
    url := "/api/ideas?" + Join(queryParams, "&");
    UpstreamSegments(IntToString(page), IntToString(size), sort);
    assert RequestQuery(params) == UpstreamQuery(IntToString(page), IntToString(size), sort);
    assert queryParams == ["page[number]=" + IntToString(page), "page[size]=" + IntToString(size),
                           "append[]=small_image", "append[]=medium_image", "sort=" + sort];
  }

  /** The error-message half of `fetchIdeas` for a non-ok response: the
      message starts as the default and is reassigned through the nested reads
      of the body. */
  method NonOkMessage(statusText: string, body: ErrorBody) returns (errorMessage: string)
    ensures errorMessage == ErrorMessage(statusText, body)
  {
    errorMessage := DefaultErrorMessage(statusText);
    var errorData := ReadJson(body);
    if errorData.Success? && !errorData.value.JNull? {
      errorMessage := MessageFrom(errorData.value, "message", "error", errorMessage);
    } else {
      var errorText := RereadText(body);
      if errorText.Some? && errorText.value != "" {
        if body.parsed.Success? && !body.parsed.value.JNull? {
          // The text is the one `json()` just failed on (or read as null), so
          // parsing it again cannot give an object here.
          assert false;
        } else {
          errorMessage := errorText.value;
        }
      }
    }
  }

  /** `fetchIdeas(params)` for one outcome of its call. */
  method FetchIdeas(params: IdeasParams, outcome: Outcome) returns (url: string, result: FetchResult)
    ensures url == RequestUrl(params)
    ensures result == Result(outcome)
  {
    url := BuildRequestUrl(params);
    match outcome {
      case Threw(t) =>
        result := Recover(t);
      case Responded(OkResponse(_, json)) =>
        if json.Success? {
          result := Returned(json.value);
        } else {
          result := Recover(json.error);
        }
      case Responded(ErrorResponse(_, statusText, _, body)) =>
        var errorMessage := NonOkMessage(statusText, body);
        result := Recover(NewError(errorMessage));
    }
  }

  /** The text fallback never gets a usable object from parsing the text
      again: `json()` already parsed the same text and failed or found `null`.
      So the message is a JSON field, the raw error text, or the default. */
  lemma TextReparseNeverUsed(statusText: string, body: ErrorBody)
    ensures var read := ReadJson(body);
      var text := RereadText(body);
      ErrorMessage(statusText, body)
      == if read.Success? && !read.value.JNull? then MessageFrom(read.value, "message", "error", DefaultErrorMessage(statusText))
         else if text.Some? && text.value != "" then text.value
         else DefaultErrorMessage(statusText)
  {
  }

  /** Missing parameters default to page 1, size 10, newest first. */
  lemma DefaultRequest()
    ensures RequestQuery(IdeasParams(None, None, None)) == UpstreamQuery("1", "10", "-published_at")
  {
    assert IntToString(1) == "1" && IntToString(10) == "10";
  }

  /** A non-ok response whose JSON carries neither a usable `message` nor a
      usable `error` resolves with the empty envelope: the default message
      passes the network test. */
  lemma NoMessageGivesEmptyEnvelope(status: int, statusText: string, contentType: Option<string>, body: ErrorBody)
    requires ReadJson(body).Success? && ReadJson(body).value.JObject?
    requires forall key :: key in {"message", "error"} ==>
               var f := Property(ReadJson(body).value, key); f.None? || !Truthy(f.value)
    ensures Result(Responded(ErrorResponse(status, statusText, contentType, body))) == Returned(EMPTY_ENVELOPE)
  {
    var v := ReadJson(body).value;
    assert Property(v, "message").None? || !Truthy(Property(v, "message").value);
    assert Property(v, "error").None? || !Truthy(Property(v, "error").value);
    assert ErrorMessage(statusText, body) == DefaultErrorMessage(statusText);
  }

  /** When `json()` fails and the body cannot be read a second time (the Fetch
      standard's single-read bodies), the message stays the default one, so
      the caller gets the empty envelope whatever the body said. */
  lemma SingleReadBodyGivesEmptyEnvelope(status: int, statusText: string, contentType: Option<string>, body: ErrorBody)
    requires ReadJson(body).Failure?
    requires !body.rereadable
    ensures Result(Responded(ErrorResponse(status, statusText, contentType, body))) == Returned(EMPTY_ENVELOPE)
  {
    assert ErrorMessage(statusText, body) == DefaultErrorMessage(statusText);
  }

  /** A non-empty error text that is not JSON becomes the message itself, so
      the call rejects exactly when that text does not look like a network
      failure. */
  lemma PlainTextMessage(status: int, statusText: string, contentType: Option<string>, body: ErrorBody)
    requires body.streamFailure.None? && body.rereadable && body.parsed.Failure?
    requires body.text != ""
    ensures ErrorMessage(statusText, body) == body.text
    ensures var r := Result(Responded(ErrorResponse(status, statusText, contentType, body)));
      r.Rethrown? <==> !IsNetworkMessage(body.text)
  {
  }

  /** A JSON `message` wins over `error`; `error` is used only when `message`
      is missing or falsy. */
  lemma MessageBeforeError(statusText: string, body: ErrorBody, message: JsonValue, error: JsonValue)
    requires ReadJson(body).Success? && ReadJson(body).value.JObject?
    requires Property(ReadJson(body).value, "error") == Some(error) && Truthy(error)
    ensures (Property(ReadJson(body).value, "message") == Some(message) && Truthy(message))
      ==> ErrorMessage(statusText, body) == JsToString(message)
    ensures Property(ReadJson(body).value, "message").None? || !Truthy(Property(ReadJson(body).value, "message").value)
      ==> ErrorMessage(statusText, body) == JsToString(error)
  {
  }
}
