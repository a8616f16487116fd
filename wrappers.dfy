/** Option and Result, the two failure-compatible wrappers used across the model. */
module Wrappers {

  /** A value that may be absent: a Python dictionary key that is missing. */
  datatype Option<+T> = None | Some(value: T) {
    function GetOr(default: T): T {
      match this
      case Some(v) => v
      case None => default
    }
  }

  /** The outcome of a step that may fail with an error description. */
  datatype Result<+R, +E> = Success(value: R) | Failure(error: E)
}
