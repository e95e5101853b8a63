/** Optional values and results with an error, shared by the two applications. */
module Outcomes {

  /** A value that may be missing: the result of parsing a form field. */
  datatype Option<T> = None | Some(value: T)

  /** The result of an operation that either yields a value or fails with an error. */
  datatype Result<T, E> = Success(value: T) | Failure(error: E)
}
