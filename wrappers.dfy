/** Option and Result values that stand for Java's null and thrown exceptions. */
module Wrappers {

  /** A value that may be absent (Java `null`). */
  datatype Option<+T> = None | Some(value: T)

  /** The outcome of an operation that may throw (Java `IllegalArgumentException` and friends). */
  datatype Result<+T, +E> = Success(value: T) | Failure(error: E)
}
