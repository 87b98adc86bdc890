/**
 * The message a rejected request is stored with. Both the workflows slice and the auth slice
 * define the same helper; it is defined once here.
 */
module ApiErrors {
  import opened Wrappers
  import opened Values

  /** A thrown value: an axios error (with the response body, when a response arrived) or anything else. */
  datatype Thrown = AxiosError(responseData: Option<Value>, message: string) | OtherThrown

  /** `obj?.key` on a response body: a missing body or a non-object reads as `undefined`. */
  function Prop(data: Option<Value>, key: string): Value {
    if data.Some? && data.value.VObj? then Lookup(data.value.fields, key) else VUndefined
  }

  const Fallback := "An unexpected error occurred"

  /**
   * The response body's `error`, else its `message`, else the error's own message, else the
   * fixed fallback; each is taken only when truthy, so the result is never falsy.
   */
  function HandleApiError(e: Thrown): (r: Value)
    ensures Truthy(r)
    ensures e.AxiosError? && Truthy(Prop(e.responseData, "error")) ==> r == Prop(e.responseData, "error")
    ensures e.AxiosError? && !Truthy(Prop(e.responseData, "error")) && Truthy(Prop(e.responseData, "message")) ==>
      r == Prop(e.responseData, "message")
    ensures e.AxiosError? && !Truthy(Prop(e.responseData, "error")) && !Truthy(Prop(e.responseData, "message")) ==>
      r == VStr(if e.message != "" then e.message else Fallback)
    ensures e.OtherThrown? ==> r == VStr(Fallback)
  {
    if e.AxiosError? then
      if Truthy(Prop(e.responseData, "error")) then Prop(e.responseData, "error")
      else if Truthy(Prop(e.responseData, "message")) then Prop(e.responseData, "message")
      else if e.message != "" then VStr(e.message)
      else VStr(Fallback)
    else VStr(Fallback)
  }

  /** The body's `error` wins over its `message` whatever the message says. */
  lemma ErrorFieldFirst(body: Record, message: string)
    requires Truthy(Lookup(body, "error"))
    ensures HandleApiError(AxiosError(Some(VObj(body)), message)) == Lookup(body, "error")
  {
  }

  /** Without a usable body field the text is the error's message, or the fallback when that is empty. */
  lemma NoBodyUsesMessage(message: string)
    ensures HandleApiError(AxiosError(None, message)) == VStr(if message != "" then message else Fallback)
  {
  }
}
