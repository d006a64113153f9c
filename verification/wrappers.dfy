/** Optional values and results shared by the rest of the model. */
module Wrappers {

  /** A value that may be absent: a configuration variable that is unset, a
      dictionary key that is missing, a parse that did not succeed. */
  datatype Option<+T> = None | Some(value: T) {

    /** The value, or `default` when there is none (Python's `dict.get(k, default)`). */
    function GetOr(default: T): T {
      match this
      case Some(v) => v
      case None => default
    }
  }

  /** Either a computed value or the error that Python would have raised. */
  datatype Result<+R, +E> = Success(value: R) | Failure(error: E)
}
