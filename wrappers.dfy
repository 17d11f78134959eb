/** Option, Result and Outcome, used throughout the model for Go's nil
    values, (value, error) returns and panics. */
module Wrappers {

  datatype Option<+T> = None | Some(value: T) {
    function GetOr(default: T): T {
      match this
      case Some(v) => v
      case None => default
    }
  }

  datatype Result<+R, +E> = Success(value: R) | Failure(error: E)

  /** What a Go call that may panic ends with: a value, a returned error,
      or a panic. */
  datatype Outcome<+T> = Ok(value: T) | Err(message: string) | Panic(reason: string)
}
