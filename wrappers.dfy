// Failure-carrying values shared by the modules of this model.

module Wrappers {

  /** A value that may be absent: a null XML node, an unmatched lookup. */
  datatype Option<+T> = None | Some(value: T)

  /** The outcome of an operation that can raise or return an error code. */
  datatype Result<+T, +E> = Success(value: T) | Failure(error: E)
}
