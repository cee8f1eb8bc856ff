/** Option and Result values for Python's "missing key" and "raises" cases. */
module Wrappers {

  datatype Option<+T> = None | Some(value: T) {
    /** Python's `d.get(key, default)`. */
    function GetOr(default: T): T {
      match this
      case Some(v) => v
      case None => default
    }
  }

  datatype Result<+R, +E> = Success(value: R) | Failure(error: E)
}
