/** How the client reads a backend envelope: the data sources normalise it,
    the view models and the repository unwrap it or throw. */
module Envelopes {
  import opened Kotlin
  import opened Models

  /** The shape both `getMyAppointments` and `getAppointments` hand back:
      `ok` exactly when a result is present, and no message on success. */
  predicate Normalised<T>(e: ApiResponse<T>) {
    e.ok == e.result.Some? && (e.ok ==> e.message == None)
  }

  /** `if (resp.ok && resp.result != null) ApiResponse(true, resp.result, null)
      else ApiResponse(false, null, resp.message)`: an ok envelope without a
      result counts as a failure; a failure keeps the backend's message. */
  function Normalise<T>(e: ApiResponse<T>): (r: ApiResponse<T>)
    ensures Normalised(r)
    ensures r.ok <==> e.ok && e.result.Some?
    ensures r.ok ==> r.result == e.result
    ensures !r.ok ==> r.message == e.message
  {
    if e.ok && e.result.Some? then ApiResponse(true, e.result, None)
    else ApiResponse(false, None, e.message)
  }

  /** Normalising changes nothing on an envelope already in that shape, so
      normalising twice is normalising once. */
  lemma NormaliseFixesNormalised<T>(e: ApiResponse<T>)
    ensures Normalised(e) ==> Normalise(e) == e
    ensures Normalise(Normalise(e)) == Normalise(e)
  {
  }

  /** The idiom `if (r.ok && r.result != null) r.result else throw
      Exception(r.message ?: fallback)`, applied to a gateway reply that may
      itself have thrown (that exception passes through unchanged). */
  function Expect<T>(reply: Fallible<ApiResponse<T>>, fallback: string): (r: Fallible<T>)
    ensures r.Returned? <==> reply.Returned? && reply.value.ok && reply.value.result.Some?
    ensures r.Returned? ==> r.value == reply.value.result.value
    ensures reply.Thrown? ==> r == Thrown(reply.message)
    ensures reply.Returned? && r.Thrown? ==> r == Thrown(Some(reply.value.message.OrElse(fallback)))
  {
    match reply
    case Thrown(m) => Thrown(m)
    case Returned(e) =>
      if e.ok && e.result.Some? then Returned(e.result.value)
      else Thrown(Some(e.message.OrElse(fallback)))
  }
}
