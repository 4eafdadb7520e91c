/** What the tools see of the services they call. Every call into an HTTP
    service, SDK or environment variable is not made by the model: its outcome
    is an input value, and the tool's own post-processing is a function or a
    method over that value. */
module Calls {

  datatype Option<T> = None | Some(value: T)

  /** An exception raised by a library call; `message` is its `str(e)`.
      `ResponseError` is the flight-search client's own error class, which
      `search_flights` reports differently from every other exception. */
  datatype Error = ResponseError(message: string) | OtherError(message: string)

  /** The outcome of one external call: the value it returned, or the exception it raised. */
  datatype Fetch<T> = Fetched(value: T) | Raised(error: Error)

  /** An HTTP response: its status, and the outcome of decoding its body as JSON
      (which the tools only attempt on status 200). */
  datatype HttpResponse<B> = HttpResponse(status: nat, body: Fetch<B>)

  /** What a tool that does not catch exceptions hands back to the agent
      framework: its return value, or the exception that escapes it. */
  datatype Outcome<T> = Returns(value: T) | Propagates(error: Error)

  /** `record.get(key, default)` for a key the record may lack. */
  function GetOr(field: Option<string>, default: string): string
  {
    match field
    case Some(s) => s
    case None => default
  }

  /** `f"{x}"` for an attribute that may be `None`. */
  function Show(field: Option<string>): string
  {
    GetOr(field, "None")
  }
}
