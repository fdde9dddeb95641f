/** Option and Result, the stand-ins for C#'s null and for thrown exceptions. */
module Wrappers {

  /** A nullable reference or value: None plays the part of C#'s null. */
  datatype Option<+T> = None | Some(value: T) {
    function GetOr(default: T): T {
      match this
      case Some(v) => v
      case None => default
    }
  }

  /** The outcome of an operation that may throw: Err carries the exception. */
  datatype Result<+T, +E> = Ok(value: T) | Err(error: E)
}
