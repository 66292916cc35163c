/** Failure-carrying values standing in for Python's `None` and raised exceptions. */
module Wrappers {

  /** A value or Python's `None`. */
  datatype Option<+T> = None | Some(value: T) {
    function GetOr(default: T): T {
      match this
      case Some(v) => v
      case None => default
    }
  }

  /** A returned value, or the exception the Python call raises instead. */
  datatype Result<+R, +E> = Success(value: R) | Failure(error: E)

  /** A call made for its effect alone: it returns, or it raises. */
  datatype Outcome<+E> = Pass | Fail(error: E)
}
