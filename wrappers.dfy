/** Option, Result and Outcome: the model's stand-ins for C# nulls and exceptions. */
module Wrappers {

  /** A nullable value (`T?` in the C# source). */
  datatype Option<+T> = None | Some(value: T) {
    function GetOr(default: T): T {
      match this
      case Some(v) => v
      case None => default
    }
  }

  /** A value or the error an operation raised instead of returning it. */
  datatype Result<+T, +E> = Ok(value: T) | Err(error: E)

  /** The outcome of an operation that returns nothing: success, or the error it raised. */
  datatype Outcome<+E> = Pass | Fail(error: E)
}
