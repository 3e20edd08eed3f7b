/** Option and Result values used for absent entries and failed store calls. */
module Wrappers {

  datatype Option<+T> = None | Some(value: T) {
    function GetOr(default: T): T {
      match this
      case Some(v) => v
      case None => default
    }
  }

  /** The outcome of one handler: a value, or the error message sent back with HTTP 500. */
  datatype Result<+R, +E> = Ok(value: R) | Err(error: E)
}
