/** Failure-compatible wrappers shared by every module of the model. */
module Wrappers {

  datatype Option<+T> = None | Some(value: T)

  /** The outcome of an operation that the source may abandon by raising an exception. */
  datatype Result<+T, +E> = Success(value: T) | Failure(error: E)
}
