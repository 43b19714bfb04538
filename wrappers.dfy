/** Optional values and Go-style (value, error) results. */
module Wrappers {

  /** A value that may be absent (a Go nil pointer, a missing map key). */
  datatype Option<+T> = None | Some(value: T) {
    function GetOr(default: T): T {
      match this
      case Some(v) => v
      case None => default
    }
  }

  /** The (value, error) pair a Go function returns: exactly one of the two is meaningful. */
  datatype Result<+T, +E> = Success(value: T) | Failure(error: E)
}
