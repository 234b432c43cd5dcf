/** Option and Result, used for values that may be absent and for operations that may fail. */
module Wrappers {

  /** A value that may be absent: a missing JSON key, an unset record field, a `None`. */
  datatype Option<+T> = None | Some(value: T) {
    /** The value if present, otherwise `default` (Python's `dict.get(key, default)`). */
    function GetOr(default: T): T {
      match this
      case Some(v) => v
      case None => default
    }
  }

  /** The outcome of an operation that either succeeds with a value or fails with an error. */
  datatype Result<+T, +E> = Success(value: T) | Failure(error: E)
}
