/** Failure-carrying wrappers used throughout the model. */
module Wrappers {

  /** A value that may be absent: Java's `null` for an object field. */
  datatype Option<+T> = None | Some(value: T)

  /** The value of a call that either returns or throws. */
  datatype Result<+T, +E> = Success(value: T) | Failure(error: E)

  /** The completion of a `void` call that either returns or throws. */
  datatype Status<+E> = Pass | Fail(error: E)
}
