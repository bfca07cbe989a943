/** Optional values and results with an error, as the handlers return them. */
module Wrappers {

  /** A value that may be missing: JavaScript's `undefined` (or `null`). */
  datatype Option<+T> = None | Some(value: T)

  /** A success value, or the error a handler responds with. */
  datatype Result<+T, +E> = Ok(value: T) | Err(error: E)

  /** An error response: its HTTP status and the `message` of its JSON body. */
  datatype HttpError = HttpError(status: nat, message: string)
}
