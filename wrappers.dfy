/** Option and Result, used for the JavaScript `undefined`/`null` results and for thrown errors. */
module Wrappers {

  datatype Option<+T> = None | Some(value: T) {
    function GetOr(default: T): T {
      match this
      case Some(v) => v
      case None => default
    }
  }

  /** A computation that either returns a value or throws; the error is the thrown message. */
  datatype Result<+T, +E> = Ok(value: T) | Err(error: E)
}
