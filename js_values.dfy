/** The JavaScript values that cross the site's error paths: parsed JSON
    payloads and the values a `throw` can carry, with the conversions the
    code applies to them (`||` truthiness, `String(x)`, `JSON.stringify`). */
module JsValues {
  import opened Wrappers
  import opened Strings

  /** A parsed JSON value. Numbers are integers; object members keep their
      order, as `JSON.stringify` does. */
  datatype JsonValue =
    | JNull
    | JBool(b: bool)
    | JNumber(n: int)
    | JString(s: string)
    | JArray(items: seq<JsonValue>)
    | JObject(members: seq<(string, JsonValue)>)

  /** What a `throw` carries: an `Error` (its `name` and `message`), a bare
      string, or any other value together with what `String(value)` gives. */
  datatype Thrown =
    | JsError(name: string, message: string)
    | JsString(s: string)
    | JsOther(rendered: string)

  /** The `Error` that `new Error(message)` creates. */
  function NewError(message: string): (t: Thrown)
    ensures t.JsError? && t.message == message
  {
    JsError("Error", message)
  }

  /** JavaScript truthiness of a JSON value, as `a || b` tests it. */
  predicate Truthy(v: JsonValue) {
    match v
    case JNull => false
    case JBool(b) => b
    case JNumber(n) => n != 0
    case JString(s) => s != ""
    case JArray(_) => true
    case JObject(_) => true
  }

  /** Looks up member `key`; with repeated keys `JSON.parse` keeps the last one.
      `None` is the value `undefined`. */
  function Member(members: seq<(string, JsonValue)>, key: string): (r: Option<JsonValue>)
    ensures r.Some? ==> exists k :: 0 <= k < |members| && members[k] == (key, r.value)
    ensures r.None? ==> forall k :: 0 <= k < |members| ==> members[k].0 != key
  {
    if members == [] then None
    else
      var last := members[|members| - 1];
      if last.0 == key then Some(last.1) else Member(members[..|members| - 1], key)
  }

  /** `value[key]` for a value that is not `null` (on `null` the access throws,
      which callers handle themselves): only objects have the members the
      site reads. */
  function Property(v: JsonValue, key: string): Option<JsonValue> {
    if v.JObject? then Member(v.members, key) else None
  }

  /** `String(v)`: strings are themselves, arrays are joined with `,` (with
      `null` elements rendered empty) and objects are `[object Object]`. */
  function JsToString(v: JsonValue): string {
    match v
    case JNull => "null"
    case JBool(b) => if b then "true" else "false"
    case JNumber(n) => IntToString(n)
    case JString(s) => s
    case JArray(items) =>
      Join(seq(|items|, i requires 0 <= i < |items| =>
        if items[i].JNull? then "" else JsToString(items[i])), ",")
    case JObject(_) => "[object Object]"
  }

  /** `String(thrown)`; for an `Error` this is `Error.prototype.toString`. */
  function ThrownToString(t: Thrown): string {
    match t
    case JsError(name, message) =>
      if name == "" then message
      else if message == "" then name
      else name + ": " + message
    case JsString(s) => s
    case JsOther(rendered) => rendered
  }

  function Quote(s: string): string {
    "\"" + s + "\""
  }

  /** `JSON.stringify(v)` without whitespace. */
  function Stringify(v: JsonValue): string {
    match v
    case JNull => "null"
    case JBool(b) => if b then "true" else "false"
    case JNumber(n) => IntToString(n)
    case JString(s) => Quote(s)
    case JArray(items) =>
      "[" + Join(seq(|items|, i requires 0 <= i < |items| => Stringify(items[i])), ",") + "]"
    case JObject(members) =>
      "{" + Join(seq(|members|, i requires 0 <= i < |members| =>
        Quote(members[i].0) + ":" + Stringify(members[i].1)), ",") + "}"
  }
}
