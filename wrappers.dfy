/** Optional values (a value or JavaScript's null) and results of calls that may fail. */
module Wrappers {

  datatype Option<+T> = None | Some(value: T) {
    /** The value, or the given default when there is none (JavaScript's `x ?? d`). */
    function GetOr(default: T): T {
      match this
      case Some(v) => v
      case None => default
    }
  }

  datatype Result<+R, +E> = Success(value: R) | Failure(error: E)
}
