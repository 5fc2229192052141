/** The API transport: one HTTP exchange and the status check that decides
    whether its body is decoded. */
module Transport {
  import opened Errors

  /** The only status the service's API calls and the upload PUT accept. */
  const StatusOK := 200

  /** What reading and decoding a response body yields. */
  datatype Body<T> =
    | Unreadable(cause: string)
    | Malformed(cause: string)
    | Decoded(value: T)

  /** What one HTTP round trip produced, as far as the client can observe it. */
  datatype Exchange<T> =
    | TransportFailure(cause: string)
    | Answered(status: int, body: Body<T>)

  /** The status check and decoding of `callAPI`: a failed round trip and any
      status other than `expectedStatus` are errors, and the body is only
      looked at once the status matched. */
  function CallAPI<T>(ex: Exchange<T>, expectedStatus: int): (r: Result<T>)
    ensures r.Success? <==> ex.Answered? && ex.status == expectedStatus && ex.body.Decoded?
    ensures r.Success? ==> r.value == ex.body.value
    ensures ex.TransportFailure? ==> r == Failure(CallFailed(ex.cause))
    ensures ex.Answered? && ex.status != expectedStatus ==>
      r == Failure(UnexpectedStatus(ex.status))
  {
    match ex
    case TransportFailure(cause) => Failure(CallFailed(cause))
    case Answered(status, body) =>
      if status != expectedStatus then Failure(UnexpectedStatus(status))
      else match body
        case Unreadable(cause) => Failure(ReadFailed(cause))
        case Malformed(cause) => Failure(DecodeFailed(cause))
        case Decoded(value) => Success(value)
  }

  /** A status mismatch is reported without looking at the body: whatever the
      body holds, the result is the same error. */
  lemma StatusMismatchDecodesNothing<T>(status: int, b1: Body<T>, b2: Body<T>, expectedStatus: int)
    requires status != expectedStatus
    ensures CallAPI(Answered(status, b1), expectedStatus) == CallAPI(Answered(status, b2), expectedStatus)
    ensures CallAPI(Answered(status, b1), expectedStatus).Failure?
  {
  }
}
