/** Option and Result, the two failure-carrying shapes used throughout the model:
    `None` stands for Python's `None`, `Failure` for an exception that escapes. */
module Wrappers {

  datatype Option<+T> = None | Some(value: T) {
    function GetOr(default: T): T {
      match this
      case Some(v) => v
      case None => default
    }
  }

  datatype Result<+T, +E> = Success(value: T) | Failure(error: E)
}
