/** Failure-carrying datatypes shared by the invoker model. */
module Wrappers {

  /** A value that may be absent: the shape of a library decoder's answer. */
  datatype Option<+T> = None | Some(value: T)

  /** A value or the reason it could not be produced. */
  datatype Result<+R, +E> = Success(value: R) | Failure(error: E)
}
