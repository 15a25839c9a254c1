/** Optional values and the error results that stand for the exceptions the
    daughterboard manager raises. */
module Wrappers {

  datatype Option<+T> = None | Some(value: T) {
    /** The wrapped value, or `default` when there is none (Python's `dict.get`). */
    function GetOr(default: T): T {
      match this
      case Some(v) => v
      case None => default
    }
  }

  /** The value an operation returns, or the error it raises. */
  datatype Result<+R, +E> = Success(value: R) | Failure(error: E)

  /** Success or failure of an operation that returns nothing. */
  datatype Outcome<+E> = Pass | Fail(error: E)
}
