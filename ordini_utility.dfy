// src/stores/Gestione/ordiniUtility.ts: the request helper of the order
// management views and their own copy of the response coercion.

module OrdiniUtility {
  import opened Wrappers
  import opened Text
  import opened Js
  import opened Fetch
  import ArrayHelpers

  /** The endpoint with exactly the leading '/' that the join needs. */
  function NormalizeEndpoint(endpoint: string): (r: string)
    ensures StartsWith(r, "/")
    ensures StartsWith(endpoint, "/") ==> r == endpoint
    ensures !StartsWith(endpoint, "/") ==> r == "/" + endpoint
  {
    if StartsWith(endpoint, "/") then endpoint else "/" + endpoint
  }

  /** The URL that handleRequest fetches: the base URL and the endpoint,
      joined by exactly one '/'. */
  function RequestUrl(endpoint: string): (url: string)
    ensures StartsWith(endpoint, "/") ==> url == BaseUrl + endpoint
    ensures !StartsWith(endpoint, "/") ==> url == BaseUrl + "/" + endpoint
  {
    BaseUrl + NormalizeEndpoint(endpoint)
  }

  /** Every URL is under the server's base URL and ends with the endpoint. */
  lemma RequestUrlJoins(endpoint: string)
    ensures var url := RequestUrl(endpoint);
      && StartsWith(url, BaseUrl + "/")
      && |url| > |endpoint| && url[|url| - |endpoint|..] == endpoint
  {
    var url := RequestUrl(endpoint);
    var n := NormalizeEndpoint(endpoint);
    assert url[..|BaseUrl|] == BaseUrl;
    assert url[|BaseUrl|] == n[0] == '/';
    assert url[..|BaseUrl + "/"|] == BaseUrl + "/";
    assert url[|url| - |n|..] == n;
    assert n[|n| - |endpoint|..] == endpoint;
  }

  /** Normalising an endpoint twice is normalising it once, so "x" and "/x"
      reach the same URL. */
  lemma {:induction false} NormalizeIdempotent(endpoint: string)
    ensures NormalizeEndpoint(NormalizeEndpoint(endpoint)) == NormalizeEndpoint(endpoint)
    ensures RequestUrl("/" + endpoint) == RequestUrl(endpoint) <==> !StartsWith(endpoint, "/")
  {
    var slashed := "/" + endpoint;
    assert StartsWith(slashed, "/");
    if StartsWith(endpoint, "/") {
      assert |RequestUrl(slashed)| == |RequestUrl(endpoint)| + 1;
    }
  }

  /** The message of the Error that handleRequest throws for an HTTP error status:
      the inner throw adds the prefix once and the outer catch adds it again. */
  function HttpErrorMessage(errorMsg: string, status: int, text: string): string
  {
    errorMsg + ": " + (errorMsg + ": " + IntToString(status) + " \U{2014} " + text)
  }

  /** Whether the content-type header announces JSON. */
  predicate IsJson(contentType: Option<string>)
  {
    contentType.Some? && Includes(contentType.value, "application/json")
  }

  /** How handleRequest settles, given what fetch produced. */
  function HandleRequest(errorMsg: string, t: Transport): (r: Settled)
    // every failure is an Error whose message starts with the caller's prefix
    ensures r.Rejected? ==> StartsWith(r.message, errorMsg + ": ")
    // a 404 is read as "no data", before the ok test
    ensures t.Received? && t.response.status == 404 ==> r == Resolved(Arr([]))
    ensures r.Resolved? <==>
      t.Received? && (t.response.status == 404 ||
        (IsOk(t.response.status) && !(IsJson(t.response.contentType) && t.response.json.Malformed?)))
    ensures t.Received? && t.response.status != 404 && !IsOk(t.response.status) ==>
      r == Rejected(HttpErrorMessage(errorMsg, t.response.status, t.response.text))
    ensures t.Received? && IsOk(t.response.status) && IsJson(t.response.contentType) && t.response.json.Parsed? ==>
      r == Resolved(t.response.json.value)
    ensures t.Received? && IsOk(t.response.status) && !IsJson(t.response.contentType) ==>
      r == Resolved(Obj(map[]))
    ensures t.Received? && IsOk(t.response.status) && IsJson(t.response.contentType) && t.response.json.Malformed? ==>
      r == Rejected(errorMsg + ": " + t.response.json.message)
    ensures t.NetworkError? ==> r == Rejected(errorMsg + ": " + t.message)
  {
    match t
    case NetworkError(message) => Rejected(errorMsg + ": " + message)
    case Received(response) =>
      if response.status == 404 then Resolved(Arr([]))
      else if !IsOk(response.status) then
        Rejected(HttpErrorMessage(errorMsg, response.status, response.text))
      else if IsJson(response.contentType) then
        match response.json
        case Parsed(v) => Resolved(v)
        case Malformed(m) => Rejected(errorMsg + ": " + m)
      else Resolved(Obj(map[]))
  }

  /** Process an API response so that it is treated as a list (this module's copy). */
  function EnsureArray(response: JsValue): (r: seq<JsValue>)
    ensures response.Arr? ==> r == response.items
    ensures response.Obj? ==> (r == [] <==> Truthy(Get(response, "error")))
    ensures response.Obj? && !Truthy(Get(response, "error")) ==> r == [response]
    ensures !response.Arr? && !response.Obj? ==> r == []
  {
    if response.Arr? then response.items
    else if Truthy(response) && (response.Obj? || response.Null?) then
      if Truthy(Get(response, "error")) then [] else [response]
    else []
  }

  /** The two copies of ensureArray agree on every input. */
  lemma EnsureArrayCopiesAgree(response: JsValue)
    ensures EnsureArray(response) == ArrayHelpers.EnsureArray(response)
  {
  }
}
