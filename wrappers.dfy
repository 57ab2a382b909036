/** Option and Result, for the absent fields and the error paths of the model. */
module Wrappers {

  /** A value that may be absent: an optional field of a JSON payload. */
  datatype Option<+T> = None | Some(value: T)

  /** The outcome of an operation that can fail with an error value. */
  datatype Result<+R, +E> = Success(value: R) | Failure(error: E)
}
