/** Failure-compatible datatypes standing in for Java's Optional, exceptions and null returns. */
module Wrappers {

  /** Java's Optional: None for Optional.empty(), Some for Optional.of(v). */
  datatype Option<+T> = None | Some(value: T)

  /** The outcome of an operation that either returns a value or throws. */
  datatype Result<+R, +E> = Success(value: R) | Failure(error: E)

  /** The outcome of a void operation that may throw. */
  datatype Outcome<+E> = Pass | Fail(error: E)
}
