/** The failures the client surfaces, and the response resolver every REST call
    goes through. The resolver itself lives outside the client file; here it is
    an oracle: a transport result is either a success payload (`Some`) or
    anything else (`None`: an error payload, or no payload at all). */
module Responses {
  import opened Wrappers

  datatype Error =
    /** The resolver failed; `context` is the message the call site supplied. */
    | RequestFailed(context: string)
    /** "No token returned from API" (preview-token create and update). */
    | NoTokenReturned
    /** `privacyFromNumber` met a code outside 0, 1, 2. */
    | InvalidPrivacyNumber(code: int)
    /** The cluster-affinity side call rejected (its promise is awaited without a catch). */
    | AffinityCallFailed
    /** The page loop of `list` used up the number of fetches the model allows it. */
    | PageBudgetExhausted

  /** What a REST call hands to the resolver. */
  type Transport<T> = Option<T>

  /** `handleResponse(result, context)`: the payload, or a failure naming `context`. */
  function Handle<T>(t: Transport<T>, context: string): (r: Result<T, Error>)
    ensures r.Success? <==> t.Some?
    ensures r.Success? ==> r.value == t.value
    ensures r.Failure? ==> r.error == RequestFailed(context)
  {
    match t
    case Some(v) => Success(v)
    case None => Failure(RequestFailed(context))
  }
}
