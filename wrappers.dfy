/** Option and Result, the two wrappers the model uses for JavaScript's
    `null`/`undefined` and for thrown errors. */
module Wrappers {

  datatype Option<+T> = None | Some(value: T) {
    function GetOr(default: T): T {
      match this
      case Some(v) => v
      case None => default
    }
  }

  /** `Err` carries the message of the JavaScript `Error` that would be thrown. */
  datatype Result<+T, +E> = Ok(value: T) | Err(error: E)
}
