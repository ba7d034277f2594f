/** The two halves of the browser's listing request put together: `fetchIdeas`
    (lib/api/ideas.ts) calls the site's proxy (app/api/ideas/route.ts), whose
    JSON reply becomes the response the fetcher reads. */
module IdeasFlow {
  import opened Wrappers
  import opened Strings
  import opened JsValues
  import opened IdeasTypes
  import IdeasClient
  import IdeasRoute
  import Query

  /** The JSON object of a failure reply. `details` of an internal failure
      (the stack of a thrown `Error`) is not modelled and left out. */
  function FailureJson(body: IdeasRoute.ReplyBody): (v: JsonValue)
    requires !body.Passthrough?
    ensures v.JObject?
  {
    match body
    case UpstreamFailure(status, details) =>
      JObject([("error", JString("Failed to fetch ideas")), ("status", JNumber(status)), ("details", JString(details))])
    case InternalFailure(message) =>
      JObject([("error", JString("Internal server error")), ("message", JString(message))])
  }

  /** The body as the browser receives it: its text parses back to the value
      sent, and it is read once. */
  function JsonBody(v: JsonValue): ErrorBody {
    ErrorBody(Stringify(v), Success(v), None, false)
  }

  /** The proxy's reply as the response `fetchIdeas` sees: a passthrough is an
      ok response with the same data; a failure keeps its status (never 2xx)
      and carries its JSON object. */
  function AsResponse(reply: IdeasRoute.Reply, statusText: string): (r: HttpResponse)
    ensures r.OkResponse? <==> reply.body.Passthrough?
    ensures r.status == reply.status
  {
    if reply.body.Passthrough? then OkResponse(reply.status, Success(reply.body.data))
    else ErrorResponse(reply.status, statusText, Some("application/json"), JsonBody(FailureJson(reply.body)))
  }

  /** What the browser's `fetchIdeas` settles with when the proxy's own call to
      the CMS had `upstream` as its outcome. */
  function Settle(upstream: Outcome, statusText: string): FetchResult {
    IdeasClient.Result(Responded(AsResponse(IdeasRoute.ReplyFor(upstream), statusText)))
  }

  /** The error the browser sees for a 500 from the proxy: the proxy's message,
      or "Internal server error" when that message is empty. */
  function InternalError(message: string): (t: Thrown)
    ensures t.JsError? && t.message != ""
  {
    NewError(if message != "" then message else "Internal server error")
  }

  /** End to end: a delivered listing reaches the browser unchanged; any
      non-ok CMS status reaches it as the empty envelope (the proxy's
      `error` field reads like a network failure); a failure inside the proxy
      is rethrown with its message unless that message looks like a network
      failure. */
  lemma {:induction false} SettleCases(upstream: Outcome, statusText: string)
    ensures Delivered(upstream) ==> Settle(upstream, statusText) == Returned(upstream.response.json.value)
    ensures upstream.Responded? && upstream.response.ErrorResponse? ==>
      Settle(upstream, statusText) == Returned(EMPTY_ENVELOPE)
    ensures upstream.Threw? ==>
      Settle(upstream, statusText) == Recover(InternalError(IdeasRoute.ThrownMessage(upstream.error)))
    ensures upstream.Responded? && upstream.response.OkResponse? && upstream.response.json.Failure? ==>
      Settle(upstream, statusText) == Recover(InternalError(IdeasRoute.ThrownMessage(upstream.response.json.error)))
  {
    var reply := IdeasRoute.ReplyFor(upstream);
    if !reply.body.Passthrough? {
      var v := FailureJson(reply.body);
      if reply.body.UpstreamFailure? {
        UpstreamFailureMessage(reply.body.status, reply.body.details, statusText);
        assert "Failed to fetch ideas"[..15] == "Failed to fetch";
        StartsWithContains("Failed to fetch ideas", "Failed to fetch");
      } else {
        InternalFailureMessage(reply.body.message, statusText);
      }
      assert Settle(upstream, statusText) == Recover(NewError(IdeasClient.ErrorMessage(statusText, JsonBody(v))));
    }
  }

  /** The browser's message for the proxy's non-ok reply is its `error` field. */
  lemma UpstreamFailureMessage(status: int, details: string, statusText: string)
    ensures IdeasClient.ErrorMessage(statusText, JsonBody(FailureJson(IdeasRoute.UpstreamFailure(status, details))))
      == "Failed to fetch ideas"
  {
    var members := [("error", JString("Failed to fetch ideas")), ("status", JNumber(status)), ("details", JString(details))];
    var v := FailureJson(IdeasRoute.UpstreamFailure(status, details));
    assert v == JObject(members);
    assert "details"[0] != "error"[0] && "status"[0] != "error"[0];
    assert Member(members, "error") == Member(members[..2], "error");
    assert Member(members[..2], "error") == Member(members[..2][..1], "error");
    assert members[..2] == [("error", JString("Failed to fetch ideas")), ("status", JNumber(status))];
    assert members[..2][..1] == [("error", JString("Failed to fetch ideas"))];
    assert Member(members, "message") == None;
    assert Member(members, "error") == Some(JString("Failed to fetch ideas"));
    assert ReadJson(JsonBody(v)) == Success(v);
    assert MessageFrom(v, "message", "error", DefaultErrorMessage(statusText)) == "Failed to fetch ideas";
  }

  /** The browser's message for the proxy's 500 reply is its `message` field,
      or its `error` field when that is empty. */
  lemma InternalFailureMessage(m: string, statusText: string)
    ensures IdeasClient.ErrorMessage(statusText, JsonBody(FailureJson(IdeasRoute.InternalFailure(m))))
      == InternalError(m).message
  {
    var v := FailureJson(IdeasRoute.InternalFailure(m));
    var members := v.members;
    assert members[..1] == [("error", JString("Internal server error"))];
    assert Member(members, "message") == Some(JString(m));
    assert Member(members, "error") == Some(JString("Internal server error"));
    assert ReadJson(JsonBody(v)) == Success(v);
  }

  /** A proxy whose own call fails with Node's "fetch failed" makes the
      browser's fetcher resolve with the empty envelope rather than reject. */
  lemma ProxyNetworkFailureIsSilent(statusText: string)
    ensures Settle(Threw(JsError("TypeError", "fetch failed")), statusText) == Returned(EMPTY_ENVELOPE)
  {
    SettleCases(Threw(JsError("TypeError", "fetch failed")), statusText);
    StartsWithContains("fetch failed", "fetch failed");
  }

  lemma {:induction false} IntToStringPlain(n: int)
    ensures Query.PlainValue(IntToString(n))
  {
    var r := IntToString(n);
    forall i | 0 <= i < |r| ensures r[i] != '&' && r[i] != '%' && r[i] != '+' {
      assert IsDigit(r[i]) || r[i] == '-';
    }
  }

  /** The query `fetchIdeas` writes is read back by the proxy as the same page,
      size and sort (an empty sort gives way to the default), provided the sort
      holds no character that URL decoding would change. */
  lemma {:induction false} ProxyReadsRequest(params: IdeasParams)
    requires Query.PlainValue(IdeasClient.Sort(params))
    ensures IdeasRoute.ReadParams(Query.Parse(Query.Render(IdeasClient.RequestQuery(params))))
      == IdeasRoute.RequestParams(
           IntToString(IdeasClient.Page(params)),
           IntToString(IdeasClient.Size(params)),
           if IdeasClient.Sort(params) != "" then IdeasClient.Sort(params) else NEWEST)
  {
    var page := IntToString(IdeasClient.Page(params));
    var size := IntToString(IdeasClient.Size(params));
    var sort := IdeasClient.Sort(params);
    var q := IdeasClient.RequestQuery(params);
    assert q == UpstreamQuery(page, size, sort);
    IntToStringPlain(IdeasClient.Page(params));
    IntToStringPlain(IdeasClient.Size(params));
    UpstreamPlain(page, size, sort);
    Query.ParseRender(q);
    ReadUpstream(page, size, sort);
  }

  lemma UpstreamPlain(page: string, size: string, sort: string)
    requires Query.PlainValue(page) && Query.PlainValue(size) && Query.PlainValue(sort)
    ensures Query.PlainPairs(UpstreamQuery(page, size, sort))
  {
    var q := UpstreamQuery(page, size, sort);
    assert Query.PlainKey("page[number]") && Query.PlainKey("page[size]");
    assert Query.PlainKey("append[]") && Query.PlainKey("sort");
    assert Query.PlainValue("small_image") && Query.PlainValue("medium_image");
    assert q == [("page[number]", page), ("page[size]", size), ("append[]", "small_image"),
                 ("append[]", "medium_image"), ("sort", sort)];
  }

  /** The proxy reads the upstream parameter list as the values in it. */
  lemma ReadUpstream(page: string, size: string, sort: string)
    requires page != "" && size != ""
    ensures IdeasRoute.ReadParams(UpstreamQuery(page, size, sort))
      == IdeasRoute.RequestParams(page, size, if sort != "" then sort else NEWEST)
  {
    UpstreamLookups(page, size, sort);
  }
}
