// The JavaScript values that the stores receive from the server and pass
// around untyped, with the few JavaScript semantics the stores rely on:
// truthiness, property reads, object spread and String(value).

module Js {
  import opened Text

  /** A JSON-like JavaScript value. Numbers are integers in this model. */
  datatype JsValue =
    | Undefined
    | Null
    | Bool(b: bool)
    | Num(n: int)
    | Str(s: string)
    | Arr(items: seq<JsValue>)
    | Obj(fields: map<string, JsValue>)

  /** What `if (v)` and `v || d` test. */
  predicate Truthy(v: JsValue)
  {
    match v
    case Undefined => false
    case Null => false
    case Bool(b) => b
    case Num(n) => n != 0
    case Str(s) => s != []
    case Arr(_) => true
    case Obj(_) => true
  }

  /** Reading a property of null or undefined throws a TypeError. */
  predicate IsNullish(v: JsValue) { v.Undefined? || v.Null? }

  /** `v.key` on a value that is not nullish: only objects carry own fields here. */
  function Get(v: JsValue, key: string): (r: JsValue)
    ensures !v.Obj? ==> r == Undefined
    ensures v.Obj? && key !in v.fields ==> r == Undefined
  {
    if v.Obj? && key in v.fields then v.fields[key] else Undefined
  }

  /** `v || d`. */
  function Or(v: JsValue, d: JsValue): (r: JsValue)
    ensures Truthy(v) ==> r == v
    ensures !Truthy(v) ==> r == d
  {
    if Truthy(v) then v else d
  }

  /** The own fields that `{...v}` copies (string and array indices are not modelled). */
  function Spread(v: JsValue): (m: map<string, JsValue>)
    ensures v.Obj? ==> m == v.fields
    ensures !v.Obj? ==> m == map[]
  {
    if v.Obj? then v.fields else map[]
  }

  /** Array.prototype.join(",") on already rendered elements. */
  function JoinComma(parts: seq<string>): string
  {
    if parts == [] then "" else if |parts| == 1 then parts[0] else parts[0] + "," + JoinComma(parts[1..])
  }

  /** String(v), as used by template literals and property keys. */
  function ToJsString(v: JsValue): (r: string)
    ensures v.Str? ==> r == v.s
    ensures v.Num? ==> r == IntToString(v.n)
    decreases v
  {
    match v
    case Undefined => "undefined"
    case Null => "null"
    case Bool(b) => if b then "true" else "false"
    case Num(n) => IntToString(n)
    case Str(s) => s
    case Arr(items) =>
      // null and undefined elements render as empty strings
      JoinComma(seq(|items|, i requires 0 <= i < |items| =>
        if IsNullish(items[i]) then "" else ToJsString(items[i])))
    case Obj(_) => "[object Object]"
  }
}

module Fetch {
  import opened Wrappers
  import opened Js

  /** The server's base URL, API_CONFIG.BASE_URL in src/utils/api.ts. */
  const BaseUrl: string := "http://figliolo.it:5006/v1"

  /** Response.ok: the status is in the range 200-299. */
  predicate IsOk(status: int) { 200 <= status <= 299 }

  /** What `await response.json()` gives: a value, or a SyntaxError with its message. */
  datatype JsonBody = Parsed(value: JsValue) | Malformed(message: string)

  /** A response as the stores see it. */
  datatype Response = Response(
    status: int,
    contentType: Option<string>,  // the content-type header, if any
    text: string,                 // what `await response.text()` gives
    json: JsonBody)               // what `await response.json()` gives

  /** The outcome of `await fetch(...)`: a response, or a rejection (network failure). */
  datatype Transport = NetworkError(message: string) | Received(response: Response)

  /** The outcome of awaiting a promise: a value, or an Error with its message. */
  datatype Settled = Resolved(value: JsValue) | Rejected(message: string)
}
