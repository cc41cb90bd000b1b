/** Option and Result, shared by the other modules. */
module Wrappers {

  datatype Option<+T> = None | Some(value: T)

  /** The outcome of an operation that either succeeds or fails with an error value. */
  datatype Result<+T, +E> = Ok(value: T) | Err(error: E)
}
