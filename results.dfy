/** Optional values and error returns shared by every module of the model. */
module Results {

  /** A value that may be absent: JavaScript `undefined`/`null`, Python `None`. */
  datatype Option<+T> = None | Some(value: T) {
    function GetOr(default: T): T {
      match this
      case Some(v) => v
      case None => default
    }
  }

  /** The outcome of an operation that can fail with an error value. */
  datatype Result<+T, +E> = Ok(value: T) | Err(error: E)

  /** An HTTP error response of the backend: a status code and its detail text. */
  datatype HttpError = HttpError(status: int, detail: string)

  /** What the server answers when a route raises an exception it does not handle. */
  const ServerError: HttpError := HttpError(500, "Internal Server Error")
}
