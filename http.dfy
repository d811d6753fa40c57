/** The outcome of one remote call as the stores see it: the response data, or
    the rejected error with the server's response when there was one. */
module Http {
  import opened Js

  /** `error.response`: the status and the server-supplied `data.error` text. */
  datatype ErrorResponse = ErrorResponse(status: int, message: Option<string>)

  /** A rejected call; `response` is missing when no response was received. */
  datatype HttpError = HttpError(response: Option<ErrorResponse>)

  datatype Outcome<+T> = Ok(data: T) | Err(error: HttpError)

  /** `error.response?.data?.error`. */
  function ServerMessage(e: HttpError): Option<string> {
    if e.response.Some? then e.response.value.message else None
  }

  /** `error.response?.data?.error || fallback`: the text every store records
      as its `error` after a failed call. */
  function ErrorText(e: HttpError, fallback: string): (m: string)
    ensures Truthy(ServerMessage(e)) ==> m == ServerMessage(e).value
    ensures !Truthy(ServerMessage(e)) ==> m == fallback
    ensures e.response.None? ==> m == fallback
    ensures fallback != "" ==> m != ""
  {
    OrElse(ServerMessage(e), fallback)
  }

  /** `error.response && error.response.status === 401`. */
  predicate IsUnauthorized(e: HttpError) {
    e.response.Some? && e.response.value.status == 401
  }
}
