/** Failure-compatible result types standing for the source's nullable values and exceptions. */
module Wrappers {

  /** A value that may be absent (a C# null reference). */
  datatype Option<+T> = None | Some(value: T)

  /** The outcome of an operation that returns a value or throws. */
  datatype Result<+T, +E> = Success(value: T) | Failure(error: E)

  /** The outcome of an operation that returns nothing or throws. */
  datatype Outcome<+E> = Pass | Fail(error: E)
}
