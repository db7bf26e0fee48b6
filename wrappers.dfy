/** Option and Result, the two failure-carrying value types the model uses. */
module Wrappers {

  /** A value that may be absent (a missing dictionary key, a failed search). */
  datatype Option<+T> = None | Some(value: T)

  /** The outcome of a call that either returns data or raises; `error` is the exception's text. */
  datatype Result<+R, +E> = Success(value: R) | Failure(error: E)
}
