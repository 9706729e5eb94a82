/** Option and Result, the usual failure-carrying wrappers. */
module Wrappers {

  /** `undefined`/`null` versus a present value. */
  datatype Option<+T> = None | Some(value: T) {
    function GetOr(default: T): T {
      match this
      case Some(v) => v
      case None => default
    }
  }

  /** A value or a thrown error. */
  datatype Result<+T, +E> = Ok(value: T) | Err(error: E)
}
