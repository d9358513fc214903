/** Failure-compatible wrappers shared by every module of the model. */
module Wrappers {

  /** A value that may be missing: Python's `None` versus a present value. */
  datatype Option<+T> = None | Some(value: T) {

    /** The present value, or `default` when missing (Python's `x or default` on optional values). */
    function GetOr(default: T): T {
      match this
      case Some(v) => v
      case None => default
    }
  }

  /** The outcome of a call that may raise: `Err` carries the exception's message text. */
  datatype Result<+T> = Ok(value: T) | Err(message: string)
}
