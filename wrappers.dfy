/** Failure-compatible wrappers shared by every module of the model. */
module Wrappers {

  /** A value that may be absent: Python's `None`, a missing dictionary key,
      TypeScript's `null`/`undefined`. */
  datatype Option<+T> = None | Some(value: T) {
    function GetOr(default: T): T {
      match this
      case Some(v) => v
      case None => default
    }
  }

  /** The outcome of an operation that can fail with an error value
      (an HTTP error raised by a route, for instance). */
  datatype Result<+T, +E> = Ok(value: T) | Err(error: E)
}
