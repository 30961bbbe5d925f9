/** Failure-carrying return values, used where the original raises an exception. */
module Wrappers {

  /** A value or the error that stopped its computation. */
  datatype Result<T, E> = Ok(value: T) | Err(error: E)

  /** Success without a value, or the error that stopped the operation. */
  datatype Outcome<E> = Pass | Fail(error: E)

  datatype Option<T> = None | Some(value: T)
}
