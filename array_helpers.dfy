// src/utils/arrayHelpers.js: the response coercion shared by the views.

module ArrayHelpers {
  import opened Js

  /** Treats a server response as a list: a list stays as it is, an object is a
      one-element list unless it carries a truthy `error`, anything else is empty. */
  function EnsureArray(response: JsValue): (r: seq<JsValue>)
    ensures response.Arr? ==> r == response.items
    ensures response.Obj? ==> (r == [] <==> Truthy(Get(response, "error")))
    ensures response.Obj? && !Truthy(Get(response, "error")) ==> r == [response]
    ensures !response.Arr? && !response.Obj? ==> r == []
  {
    if response.Arr? then response.items
    else if Truthy(response) && (response.Obj? || response.Null?) then
      // typeof null is 'object', but null is not truthy
      if Truthy(Get(response, "error")) then [] else [response]
    else []
  }

  /** Coercing twice changes nothing: a coerced list read back as a list is itself. */
  lemma EnsureArrayIdempotent(response: JsValue)
    ensures EnsureArray(Arr(EnsureArray(response))) == EnsureArray(response)
  {
  }
}
