/** Value stand-ins for C# nulls and exceptions. */
module Wrappers {

  /** A reference or value that may be null. */
  datatype Option<+T> = None | Some(value: T)

  /** The value a call returns, or the exception it throws. */
  datatype Result<+T, +E> = Success(value: T) | Failure(error: E)

  /** A call without a return value that completes or throws. */
  datatype Outcome<+E> = Pass | Fail(error: E)
}
