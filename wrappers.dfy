/** Option and Result, for Kotlin's nullable values and thrown exceptions. */
module Wrappers {

  /** A value that may be absent: Kotlin's `T?`. */
  datatype Option<+T> = None | Some(value: T)

  /** The value of a computation, or the error it would have thrown. */
  datatype Result<+R, +E> = Success(value: R) | Failure(error: E)
}
