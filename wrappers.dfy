/** Small failure-carrying datatypes used in place of the source's null references and exceptions. */
module Wrappers {

  /** A value that may be absent (a C# reference that may be null). */
  datatype Option<+T> = None | Some(value: T)

  /** The value an operation returns, or the message of the exception it throws. */
  datatype Result<+T, +E> = Success(value: T) | Failure(error: E)

  /** Whether an operation that returns nothing completed, or the message of the exception it threw. */
  datatype Outcome = Pass | Fail(message: string)
}
