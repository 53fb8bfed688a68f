/** Failure-carrying wrappers used across the model: a JavaScript value that may be
    `undefined`/`null` is an `Option`, an operation that may throw is a `Result`. */
module Wrappers {

  datatype Option<+T> = None | Some(value: T) {
    function GetOr(default: T): T {
      match this
      case Some(v) => v
      case None => default
    }
  }

  datatype Result<+T, +E> = Ok(value: T) | Err(error: E)
}
