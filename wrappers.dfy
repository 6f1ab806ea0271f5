/** Option and Result values shared by the modules of the session and invitation model. */
module Wrappers {

  /** A value that may be absent (a JavaScript `null` or `undefined`). */
  datatype Option<+T> = None | Some(value: T)

  /** The outcome of an operation that either returns a value or throws an error. */
  datatype Result<+R, +E> = Success(value: R) | Failure(error: E)
}
