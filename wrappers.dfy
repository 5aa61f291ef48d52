/** Failure-carrying wrappers shared by every module of the model. */
module Wrappers {

  /** A value that may be absent (Python's `None`). */
  datatype Option<T> = None | Some(value: T)

  /** A value or the error that stopped its computation. */
  datatype Result<T, E> = Ok(value: T) | Err(error: E)

  /** A step that either completes or fails with an error. */
  datatype Outcome<E> = Pass | Fail(error: E)
}
