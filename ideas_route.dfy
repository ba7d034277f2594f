/** The proxy endpoint `GET /api/ideas` (app/api/ideas/route.ts): it reads
    page, size and sort from the request's query, calls the CMS with the fixed
    parameter list, and maps what happens to a status and a JSON body. The
    request's query is given already parsed; the CMS call is the `Outcome`. */
module IdeasRoute {
  import opened Wrappers
  import opened Strings
  import opened JsValues
  import opened IdeasTypes
  import Query

  const UPSTREAM_ENDPOINT := "https://suitmedia-backend.suitdev.com/api/ideas"

  /** `searchParams.get(key) || fallback`: a missing or empty value falls through. */
  function GetOr(search: seq<Query.Pair>, key: string, fallback: string): (v: string)
    ensures Query.Get(search, key).Some? && Query.Get(search, key).value != "" ==> v == Query.Get(search, key).value
    ensures Query.Get(search, key).None? || Query.Get(search, key).value == "" ==> v == fallback
  {
    var got := Query.Get(search, key);
    if got.Some? && got.value != "" then got.value else fallback
  }

  datatype RequestParams = RequestParams(page: string, size: string, sort: string)

  /** page from `page[number]`, then `page`, then "1"; size from
      `page[size]`, then `size`, then "10"; sort from `sort`, then
      "-published_at". None of the three is ever empty. */
  function ReadParams(search: seq<Query.Pair>): (p: RequestParams)
    ensures p.page != "" && p.size != "" && p.sort != ""
    ensures Query.Get(search, "page[number]") == Some(p.page) || Query.Get(search, "page") == Some(p.page) || p.page == "1"
    ensures Query.Get(search, "page[size]") == Some(p.size) || Query.Get(search, "size") == Some(p.size) || p.size == "10"
    ensures Query.Get(search, "sort") == Some(p.sort) || p.sort == NEWEST
  {
    RequestParams(
      GetOr(search, "page[number]", GetOr(search, "page", "1")),
      GetOr(search, "page[size]", GetOr(search, "size", "10")),
      GetOr(search, "sort", NEWEST))
  }

  /** What the handler read from an error body: a string or a JSON value. */
  datatype ErrorData = TextData(s: string) | JsonData(v: JsonValue)

  /** The content type announces JSON: `contentType?.includes("application/json")`. */
  predicate JsonContentType(contentType: Option<string>) {
    contentType.Some? && Contains(contentType.value, "application/json")
  }

  /** The prefix of the text that stands for an error body that could not be read. */
  const UNREADABLE_PREFIX := "Unable to parse error response: "

  /** The body is read as JSON exactly when the content type mentions
      `application/json`, otherwise as text; a failed read becomes a string
      describing the error. */
  function ReadErrorData(contentType: Option<string>, body: ErrorBody): (d: ErrorData)
    ensures d.JsonData? <==> JsonContentType(contentType) && ReadJson(body).Success?
    ensures d.JsonData? ==> d.v == ReadJson(body).value
    ensures !JsonContentType(contentType) && ReadText(body).Success? ==> d == TextData(body.text)
    ensures JsonContentType(contentType) && ReadJson(body).Failure? ==>
      d == TextData(UNREADABLE_PREFIX + ThrownToString(ReadJson(body).error))
    ensures !JsonContentType(contentType) && ReadText(body).Failure? ==>
      d == TextData(UNREADABLE_PREFIX + ThrownToString(ReadText(body).error))
  {
    if contentType.Some? && Contains(contentType.value, "application/json") then
      match ReadJson(body)
      case Success(v) => JsonData(v)
      case Failure(e) => TextData("Unable to parse error response: " + ThrownToString(e))
    else
      match ReadText(body)
      case Success(s) => TextData(s)
      case Failure(e) => TextData("Unable to parse error response: " + ThrownToString(e))
  }

  /** `details`: the data itself when it is a string, its JSON text otherwise. */
  function Details(d: ErrorData): (r: string)
    ensures d.TextData? ==> r == d.s
    ensures d.JsonData? && d.v.JString? ==> r == d.v.s
    ensures d.JsonData? && !d.v.JString? ==> r == Stringify(d.v)
  {
    match d
    case TextData(s) => s
    case JsonData(JString(s)) => s
    case JsonData(v) => Stringify(v)
  }

  /** The JSON body of the handler's response. */
  datatype ReplyBody =
    | Passthrough(data: IdeasResponse)
    | UpstreamFailure(status: int, details: string)
    | InternalFailure(message: string)

  datatype Reply = Reply(status: int, body: ReplyBody)

  /** The `message` of the 500 reply: an `Error`'s message, a thrown string,
      or "Unknown error occurred". */
  function ThrownMessage(t: Thrown): (m: string)
    ensures t.JsError? ==> m == t.message
    ensures t.JsString? ==> m == t.s
    ensures t.JsOther? ==> m == "Unknown error occurred"
  {
    match t
    case JsError(_, message) => message
    case JsString(s) => s
    case JsOther(_) => "Unknown error occurred"
  }

  /** The reply for one outcome of the CMS call: a readable ok body passes
      through with 200, a non-ok status is forwarded with the failure envelope,
      and everything thrown, including an unreadable ok body, is a 500. */
  function ReplyFor(outcome: Outcome): (r: Reply)
    ensures Delivered(outcome) <==> r.body.Passthrough?
    ensures Delivered(outcome) ==> r == Reply(200, Passthrough(outcome.response.json.value))
    ensures outcome.Responded? && outcome.response.ErrorResponse? ==>
      r.status == outcome.response.status && r.body.UpstreamFailure? && r.body.status == r.status
    ensures outcome.Threw? ==> r == Reply(500, InternalFailure(ThrownMessage(outcome.error)))
    ensures outcome.Responded? && outcome.response.OkResponse? && outcome.response.json.Failure? ==>
      r == Reply(500, InternalFailure(ThrownMessage(outcome.response.json.error)))
  {
    match outcome
    case Threw(t) => Reply(500, InternalFailure(ThrownMessage(t)))
    case Responded(OkResponse(_, json)) =>
      if json.Success? then Reply(200, Passthrough(json.value))
      else Reply(500, InternalFailure(ThrownMessage(json.error)))
    case Responded(ErrorResponse(status, _, contentType, body)) =>
      Reply(status, UpstreamFailure(status, Details(ReadErrorData(contentType, body))))
  }

  /** The CMS URL: the fixed endpoint with the five parameters appended in order. */
  method BuildUpstreamUrl(page: string, size: string, sort: string) returns (apiUrl: Url)
    ensures apiUrl == Url(UPSTREAM_ENDPOINT, UpstreamQuery(page, size, sort))
  {
    apiUrl := Url(UPSTREAM_ENDPOINT, []);
    apiUrl := apiUrl.(search := apiUrl.search + [("page[number]", page)]);
    apiUrl := apiUrl.(search := apiUrl.search + [("page[size]", size)]);
    apiUrl := apiUrl.(search := apiUrl.search + [("append[]", "small_image")]);
    apiUrl := apiUrl.(search := apiUrl.search + [("append[]", "medium_image")]);
    apiUrl := apiUrl.(search := apiUrl.search + [("sort", sort)]);
  }

  /** The `details` of a non-ok reply: the body read by content type, a read
      failure described, and a non-string value turned into JSON text. */
  method ErrorDetails(contentType: Option<string>, body: ErrorBody) returns (details: string)
    ensures details == Details(ReadErrorData(contentType, body))
  {
    var errorData: ErrorData;
    if contentType.Some? && Contains(contentType.value, "application/json") {
      var read := ReadJson(body);
      if read.Success? {
        errorData := JsonData(read.value);
      } else {
        errorData := TextData("Unable to parse error response: " + ThrownToString(read.error));
      }
    } else {
      var read := ReadText(body);
      if read.Success? {
        errorData := TextData(read.value);
      } else {
        errorData := TextData("Unable to parse error response: " + ThrownToString(read.error));
      }
    }
    if errorData.TextData? {
      details := errorData.s;
    } else if errorData.v.JString? {
      details := errorData.v.s;
    } else {
      details := Stringify(errorData.v);
    }
  }

  /** The handler: reads the parameters, builds the CMS URL and replies for
      the call's outcome. */
  method HandleGet(search: seq<Query.Pair>, outcome: Outcome) returns (apiUrl: Url, reply: Reply)
    ensures var p := ReadParams(search); apiUrl == Url(UPSTREAM_ENDPOINT, UpstreamQuery(p.page, p.size, p.sort))
    ensures reply == ReplyFor(outcome)
  {
    var page := GetOr(search, "page[number]", GetOr(search, "page", "1"));
    var size := GetOr(search, "page[size]", GetOr(search, "size", "10"));
    var sort := GetOr(search, "sort", NEWEST);
    apiUrl := BuildUpstreamUrl(page, size, sort);

    match outcome {
      case Threw(t) =>
        reply := Reply(500, InternalFailure(ThrownMessage(t)));
      case Responded(OkResponse(_, json)) =>
        if json.Success? {
          reply := Reply(200, Passthrough(json.value));
        } else {
          reply := Reply(500, InternalFailure(ThrownMessage(json.error)));
        }
      case Responded(ErrorResponse(status, _, contentType, body)) =>
        var details := ErrorDetails(contentType, body);
        reply := Reply(status, UpstreamFailure(status, details));
    }
  }

  /** A request with no parameters asks the CMS for page 1 of size 10, newest first. */
  lemma NoParametersDefaults()
    ensures ReadParams([]) == RequestParams("1", "10", "-published_at")
  {
  }

  /** A non-empty bracketed value wins over the flat name, wherever either
      appears in the query. */
  lemma BracketedNameFirst(search: seq<Query.Pair>)
    ensures Query.Get(search, "page[number]").Some? && Query.Get(search, "page[number]").value != "" ==>
      ReadParams(search).page == Query.Get(search, "page[number]").value
    ensures Query.Get(search, "page[size]").Some? && Query.Get(search, "page[size]").value != "" ==>
      ReadParams(search).size == Query.Get(search, "page[size]").value
  {
  }

  /** For instance, `?page=<flat>&page[number]=<page>` reads `page`, although
      the flat name comes first. */
  lemma BracketedAfterFlat(page: string, flat: string, rest: seq<Query.Pair>)
    requires page != ""
    ensures ReadParams([("page", flat), ("page[number]", page)] + rest).page == page
  {
    var s := [("page", flat), ("page[number]", page)] + rest;
    assert s[1..] == [("page[number]", page)] + rest;
    assert Query.Get(s, "page[number]") == Some(page);
    BracketedNameFirst(s);
  }

  /** A missing or empty bracketed value falls through to the flat name, and
      a missing or empty flat value to the default, wherever the names appear
      in the query; sort falls through to newest first. */
  lemma EmptyValueFallsThrough(search: seq<Query.Pair>)
    ensures var number, flat := Query.Get(search, "page[number]"), Query.Get(search, "page");
      (number.None? || number.value == "") ==>
        (flat.Some? && flat.value != "" ==> ReadParams(search).page == flat.value) &&
        (flat.None? || flat.value == "" ==> ReadParams(search).page == "1")
    ensures var bracketed, flat := Query.Get(search, "page[size]"), Query.Get(search, "size");
      (bracketed.None? || bracketed.value == "") ==>
        (flat.Some? && flat.value != "" ==> ReadParams(search).size == flat.value) &&
        (flat.None? || flat.value == "" ==> ReadParams(search).size == "10")
    ensures var sort := Query.Get(search, "sort");
      (sort.Some? && sort.value != "" ==> ReadParams(search).sort == sort.value) &&
      (sort.None? || sort.value == "" ==> ReadParams(search).sort == NEWEST)
  {
  }

  /** For instance, `?page[number]=&page=<flat>` reads the flat value, or "1"
      when that is empty too. */
  lemma EmptyBracketedExample(flat: string, rest: seq<Query.Pair>)
    ensures ReadParams([("page[number]", ""), ("page", flat)] + rest).page == if flat != "" then flat else "1"
  {
    var s := [("page[number]", ""), ("page", flat)] + rest;
    assert s[1..] == [("page", flat)] + rest;
    assert Query.Get(s, "page[number]") == Some("");
    assert Query.Get(s, "page") == Some(flat);
    EmptyValueFallsThrough(s);
  }

  /** A JSON error body that is a string is forwarded as that string; any other
      JSON body is forwarded as its JSON text; a text body as itself. */
  lemma DetailsOfBodies(status: int, statusText: string, body: ErrorBody)
    requires body.streamFailure.None?
    ensures body.parsed.Success? && body.parsed.value.JString? ==>
      ReplyFor(Responded(ErrorResponse(status, statusText, Some("application/json"), body))).body.details
        == body.parsed.value.s
    ensures body.parsed.Success? && !body.parsed.value.JString? ==>
      ReplyFor(Responded(ErrorResponse(status, statusText, Some("application/json"), body))).body.details
        == Stringify(body.parsed.value)
    ensures ReplyFor(Responded(ErrorResponse(status, statusText, None, body))).body.details == body.text
  {
    StartsWithContains("application/json", "application/json");
  }

  /** An error body that cannot be read is forwarded as a description of
      the failure, whatever its content type. */
  lemma UnreadableBodyDescribed(status: int, statusText: string, contentType: Option<string>, body: ErrorBody)
    requires body.streamFailure.Some?
    ensures ReplyFor(Responded(ErrorResponse(status, statusText, contentType, body))).body.details
      == UNREADABLE_PREFIX + ThrownToString(body.streamFailure.value)
  {
  }
}
