/** Option and Result: the model's `null`/`undefined`/`None` and its raised errors. */
module Wrappers {

  /** An optional value: `None` stands for Python's `None` and JavaScript's `null`/`undefined`. */
  datatype Option<+T> = None | Some(value: T) {
    function GetOr(default: T): T {
      match this
      case Some(v) => v
      case None => default
    }
  }

  /** The outcome of a route handler: its response, or the error it raises. */
  datatype Result<+R, +E> = Success(value: R) | Failure(error: E)
}
