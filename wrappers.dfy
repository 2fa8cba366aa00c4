/** Optional values and success-or-failure results shared by the other modules. */
module Wrappers {

  /** A value that may be absent: SQL NULL, a missing lookup row. */
  datatype Option<+T> = None | Some(value: T)

  /** The outcome of an operation that can raise. */
  datatype Result<+T, +E> = Success(value: T) | Failure(error: E)

  /** The outcome of an operation that returns nothing but can raise. */
  datatype Outcome<+E> = Pass | Fail(error: E)
}
