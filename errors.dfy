/** Errors and results shared by the whole provider model. */
module Errors {

  /** An error returned by the OVH API client: an APIError carrying the HTTP
      status code and the query id the remote assigned to the request, or any
      other failure (transport, decoding). */
  datatype ClientError =
    | ApiError(code: int, queryId: string, message: string)
    | OtherError(message: string)

  const StatusForbidden: int := 403
  const StatusNotFound: int := 404

  /** HTTP 403: a background operation is running on the resource; retry. */
  predicate IsBusy(e: ClientError) {
    e.ApiError? && e.code == StatusForbidden
  }

  /** HTTP 404: the resource does not exist. */
  predicate IsNotFound(e: ClientError) {
    e.ApiError? && e.code == StatusNotFound
  }

  /** The query id of an APIError; other errors carry none. */
  function QueryId(e: ClientError): string {
    if e.ApiError? then e.queryId else ""
  }

  /** The errors an operation of the provider can return. */
  datatype Error =
    | Remote(cause: ClientError)                              // a client error returned as it is
    | CallFailed(queryId: string, url: string, cause: ClientError) // non-retryable error of a retried mutation
    | RetryTimedOut                                           // the retry budget ran out while the remote stayed busy
    | PollTimedOut                                            // the poll budget ran out before the target status
    | UnexpectedState(status: string)                         // a status outside pending and target
    | InvalidNumber(input: string)                            // strconv.Atoi refused its input
    | BadImportId(message: string)                            // a malformed composite import id
    | Wrapped(context: string, inner: Error)                  // fmt.Errorf("<context>: %q", inner)

  datatype Option<T> = None | Some(value: T)

  datatype Result<T> = Ok(value: T) | Err(error: Error)

  /** What a Terraform CRUD function returns: nil, an error, or the result of
      helpers.CheckDeleted(d, cause, url), whose effect is not part of this model. */
  datatype Outcome = Done | Failed(error: Error) | CheckDeleted(url: string, cause: ClientError)
}
