/** Optional values and success-or-failure results, shared by every module. */
module Wrappers {

  datatype Option<+T> = None | Some(value: T) {
    /** The JavaScript `x || d` and Python `x or d` idiom for a possibly missing value. */
    function GetOr(default: T): T {
      match this
      case Some(v) => v
      case None => default
    }
  }

  datatype Result<+R, +E> = Success(value: R) | Failure(error: E)
}
