/** Option and Result, the two shapes the data layer's values come in. */
module Wrappers {

  /** A value that may be absent (a missing object property, a missing query parameter). */
  datatype Option<+T> = None | Some(value: T) {
    function GetOr(default: T): T {
      match this
      case Some(v) => v
      case None => default
    }
  }

  /** The outcome of a call that may throw: its value, or the error it throws. */
  datatype Result<+T, +E> = Ok(value: T) | Err(error: E)
}
