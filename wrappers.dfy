/** Option and Result, the failure-carrying values used throughout the model. */
module Wrappers {

  datatype Option<+T> = None | Some(value: T) {
    function GetOr(default: T): T {
      match this
      case Some(v) => v
      case None => default
    }
  }

  /** A Go `(value, error)` pair or a thrown JavaScript error: either a value or a message. */
  datatype Result<+T> = Ok(value: T) | Err(error: string)
}
