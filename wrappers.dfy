/** Optional values and results with an error, shared by the kiwi modules. */
module Wrappers {

  /** A value that may be absent (Python's `None`). */
  datatype Option<+T> = None | Some(value: T)

  /** The outcome of an operation that may raise an exception. */
  datatype Result<+R, +E> = Success(value: R) | Failure(error: E)
}
