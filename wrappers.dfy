/** Failure-carrying result types shared by the other modules. */
module Wrappers {

  /** A value that may be absent; JavaScript's `undefined` result. */
  datatype Option<T> = None | Some(value: T)

  /** A value or the message of the error thrown instead. */
  datatype Result<T, E> = Success(value: T) | Failure(error: E)
}
