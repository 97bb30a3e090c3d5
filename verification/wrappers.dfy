/** Optional values and results with an error, shared by the other modules. */
module Wrappers {

  /** A value that may be absent: an empty CSV cell or a regex that did not match. */
  datatype Option<+T> = None | Some(value: T)

  /** The outcome of an operation that can raise. */
  datatype Result<+T, +E> = Success(value: T) | Failure(error: E)
}
