/** The server-side fetcher `fetchIdeasServer` (lib/api/ideas-server.ts): it
    calls the CMS directly for server rendering. The environment's base URL is
    a parameter and the HTTP call is the `Outcome` given. */
module IdeasServer {
  import opened Wrappers
  import opened Strings
  import opened JsValues
  import opened IdeasTypes
  import Query
  import IdeasClient

  const DEFAULT_API_BASE := "https://suitmedia-backend.suitdev.com"

  /** `NEXT_PUBLIC_API_BASE_URL || default`: an unset or empty variable gives the default. */
  function ApiBase(env: Option<string>): (base: string)
    ensures base != ""
    ensures env.Some? && env.value != "" ==> base == env.value
    ensures env.None? || env.value == "" ==> base == DEFAULT_API_BASE
  {
    if env.Some? && env.value != "" then env.value else DEFAULT_API_BASE
  }

  /** The listing endpoint under the chosen base. */
  function Endpoint(env: Option<string>): string {
    ApiBase(env) + "/api/ideas"
  }

  /** The message of a non-ok response: the JSON body's `error`, then its
      `message`, then the default. A body that is not JSON (or is `null`) is
      only logged, so the message stays the default. */
  function ErrorMessage(statusText: string, body: ErrorBody): string {
    var fallback := DefaultErrorMessage(statusText);
    var read := ReadJson(body);
    if read.Success? && !read.value.JNull? then MessageFrom(read.value, "error", "message", fallback)
    else fallback
  }

  /** What `fetchIdeasServer` resolves or rejects with for one outcome of its call. */
  function Result(outcome: Outcome): FetchResult {
    SettleFetch(outcome, ErrorMessage)
  }

  /** The upstream URL: the endpoint with its five search parameters appended
      one after another. */
  method BuildUpstreamUrl(params: IdeasParams, env: Option<string>) returns (apiUrl: Url)
    ensures apiUrl.endpoint == Endpoint(env)
    ensures apiUrl.search == IdeasClient.RequestQuery(params)
  {
    var page := if params.page.Some? then params.page.value else DEFAULT_PAGE;
    var size := if params.size.Some? then params.size.value else DEFAULT_SIZE;
    var sort := if params.sort.Some? then params.sort.value else NEWEST;
    var apiBaseUrl := if env.Some? && env.value != "" then env.value else DEFAULT_API_BASE;
    apiUrl := Url(apiBaseUrl + "/api/ideas", []);
    apiUrl := apiUrl.(search := apiUrl.search + [("page[number]", IntToString(page))]);
    apiUrl := apiUrl.(search := apiUrl.search + [("page[size]", IntToString(size))]);
    apiUrl := apiUrl.(search := apiUrl.search + [("append[]", "small_image")]);
    apiUrl := apiUrl.(search := apiUrl.search + [("append[]", "medium_image")]);
    apiUrl := apiUrl.(search := apiUrl.search + [("sort", sort)]);
    assert apiUrl.search == UpstreamQuery(IntToString(page), IntToString(size), sort);
    assert IdeasClient.RequestQuery(params) == UpstreamQuery(IntToString(page), IntToString(size), sort);
  }

  /** The error-message half for a non-ok response. */
  method NonOkMessage(statusText: string, body: ErrorBody) returns (errorMessage: string)
    ensures errorMessage == ErrorMessage(statusText, body)
  {
    errorMessage := DefaultErrorMessage(statusText);
    var errorData := ReadJson(body);
    if errorData.Success? && !errorData.value.JNull? {
      errorMessage := MessageFrom(errorData.value, "error", "message", errorMessage);
    }
  }

  /** `fetchIdeasServer(params)` for one outcome of its call. */
  method FetchIdeasServer(params: IdeasParams, env: Option<string>, outcome: Outcome)
    returns (apiUrl: Url, result: FetchResult)
    ensures apiUrl.endpoint == Endpoint(env)
    ensures apiUrl.search == IdeasClient.RequestQuery(params)
    ensures result == Result(outcome)
  {
    apiUrl := BuildUpstreamUrl(params, env);
    match outcome {
      case Threw(t) =>
        result := Recover(t);
      case Responded(OkResponse(_, json)) =>
        if json.Success? {
          result := Returned(json.value);
        } else {
          result := Recover(json.error);
        }
      case Responded(ErrorResponse(_, statusText, _, body)) =>
        var errorMessage := NonOkMessage(statusText, body);
        result := Recover(NewError(errorMessage));
    }
  }

  /** The text of a non-JSON error body never reaches the caller: the server
      fetcher resolves with the empty envelope whatever the text is. */
  lemma TextBodyIgnored(status: int, statusText: string, contentType: Option<string>, body: ErrorBody)
    requires ReadJson(body).Failure?
    ensures Result(Responded(ErrorResponse(status, statusText, contentType, body))) == Returned(EMPTY_ENVELOPE)
  {
  }

  /** The two fetchers read the same two fields in opposite order: they agree
      when at most one of `message` and `error` is usable, and when both are,
      the client reports `message` and the server reports `error`. */
  lemma PrecedenceReversed(statusText: string, body: ErrorBody)
    requires ReadJson(body).Success? && ReadJson(body).value.JObject?
    ensures var v := ReadJson(body).value;
      var m := Property(v, "message");
      var e := Property(v, "error");
      && (m.Some? && Truthy(m.value) && e.Some? && Truthy(e.value) ==>
            IdeasClient.ErrorMessage(statusText, body) == JsToString(m.value)
            && ErrorMessage(statusText, body) == JsToString(e.value))
      && (!(m.Some? && Truthy(m.value) && e.Some? && Truthy(e.value)) ==>
            IdeasClient.ErrorMessage(statusText, body) == ErrorMessage(statusText, body))
  {
  }
}
