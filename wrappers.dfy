/** Success-or-error wrappers: a thrown error or a rejected promise of the
    source becomes a `Failure` (or `Fail`) value carrying the error. */
module Wrappers {

  /** The outcome of an operation that yields a value or fails. */
  datatype Result<+T, +E> = Success(value: T) | Failure(error: E)

  /** The outcome of an operation that yields nothing or fails. */
  datatype Outcome<+E> = Pass | Fail(error: E)
}
