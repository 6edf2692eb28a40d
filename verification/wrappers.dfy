/** Failure-compatible wrappers used across the model: Option for a value that
    may be missing (an absent or unreadable save file) and Result for an
    operation that can fail (an unknown channel name). */
module Wrappers {

  datatype Option<+T> = None | Some(value: T) {

    /** Returns the value in Some, or the given default for None. */
    function GetOr(default: T): T {
      match this
      case Some(v) => v
      case None => default
    }
  }

  datatype Result<+R, +E> = Success(value: R) | Failure(error: E)
}
