/** Optional values and results with an error, used for the host lookups that
    may fail and for command-line validation. */
module Wrappers {

  /** A value that may be absent (a failed lookup, a nil pointer). */
  datatype Option<+T> = None | Some(value: T) {

    /** The wrapped value, or `default` when there is none. */
    function GetOr(default: T): T {
      match this
      case Some(v) => v
      case None => default
    }
  }

  /** Either a successful value or an error. */
  datatype Result<+R, +E> = Success(value: R) | Failure(error: E)
}
