/** Failure-compatible wrappers shared by the other modules: an optional value
    (a JavaScript value that may be `null` or `undefined`) and a result that is
    either a value or an error message. */
module Wrappers {

  datatype Option<+T> = None | Some(value: T) {
    function GetOr(default: T): T {
      match this
      case Some(v) => v
      case None => default
    }
  }

  datatype Result<+R, +E> = Ok(value: R) | Err(error: E)
}
