/** Failure-compatible wrappers shared by the other modules. */
module Wrappers {
  datatype Option<+T> = None | Some(value: T)

  /** A value, or the error that a JavaScript function would have thrown instead. */
  datatype Result<+R, +E> = Success(value: R) | Failure(error: E)
}
