/** Option and Result, used for Java's nullable returns and thrown exceptions. */
module Wrappers {

  /** A value that may be absent: Java's `null` / `Optional.empty()`. */
  datatype Option<+T> = None | Some(value: T) {
    function GetOr(default: T): T {
      match this
      case Some(v) => v
      case None => default
    }
  }

  /** The outcome of an operation that may throw. */
  datatype Result<+R, +E> = Success(value: R) | Failure(error: E)
}
