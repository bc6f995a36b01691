/** Option and Result, used for Python's absent dictionary keys and raised exceptions. */
module Wrappers {

  /** A value that may be absent: a missing dictionary key, an unset metric. */
  datatype Option<+T> = None | Some(value: T) {

    /** `dict.get(key, default)`. */
    function GetOr(default: T): T {
      match this
      case Some(v) => v
      case None => default
    }
  }

  /** The outcome of a Python call that either returns a value or raises. */
  datatype Result<+T, +E> = Ok(value: T) | Err(error: E)
}
