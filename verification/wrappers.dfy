/** Option and Result values shared by every module of the model. */
module Wrappers {

  /** A value that may be missing: `undefined` / `null` in the SDK. */
  datatype Option<+T> = None | Some(value: T)

  /** The outcome of an operation that can fail with an error value. */
  datatype Result<+T, +E> = Success(value: T) | Failure(error: E)
}
