/** Failure-carrying wrappers used by the decoders and lookups of this model. */
module Wrappers {

  /** An optional value: a lookup that may find nothing. */
  datatype Option<+T> = None | Some(value: T)

  /** The outcome of an operation that the original signals with an exception. */
  datatype Result<+R, +E> = Success(value: R) | Failure(error: E)
}
