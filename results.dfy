/** Request-body fields, the errors the handlers raise, and handler results. */
module Results {

  /** A field of the JSON request body: `None` when it is absent or not a
      string, `Some(s)` when it holds the string `s`. */
  datatype Option<+T> = None | Some(value: T)

  /** The error a handler passes to `next`: a message and an HTTP status. */
  datatype ApiError = ApiError(message: string, statusCode: nat)

  /** What a handler answers: the response's value, or the error it raises. */
  datatype Result<+T> = Ok(value: T) | Err(error: ApiError)

  function NotFound(message: string): ApiError { ApiError(message, 404) }

  function BadRequest(message: string): ApiError { ApiError(message, 400) }
}
