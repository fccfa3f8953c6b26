/** Option and Result values standing in for the null pointers, `bool` error
    returns and exceptions of the modelled code. */
module Wrappers {

  /** A value that may be absent: a nullable reference or an unset field. */
  datatype Option<+T> = None | Some(value: T) {
    function GetOr(default: T): T {
      match this
      case Some(v) => v
      case None => default
    }
  }

  /** The outcome of an operation that either yields a value or fails. */
  datatype Result<+R, +E> = Success(value: R) | Failure(error: E)
}
