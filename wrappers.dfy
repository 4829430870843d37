/** Failure-carrying wrappers shared by the receipt modules. */
module Wrappers {

  /** A value that may be absent: Python's `None`, Go's `nil`. */
  datatype Option<+T> = None | Some(value: T) {
    function GetOr(default: T): T {
      match this
      case Some(v) => v
      case None => default
    }
  }

  /** The outcome of an operation that either returns a value or raises / returns an error. */
  datatype Result<+T, +E> = Ok(value: T) | Err(error: E)
}
