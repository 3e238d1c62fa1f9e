/** Option and Result: how the model represents Python's None and raised exceptions. */
module Wrappers {

  /** A value that may be absent (Python's `None`). */
  datatype Option<+T> = None | Some(value: T)

  /** The outcome of a call that may raise: `Ok` carries the return value, `Err` the exception. */
  datatype Result<+T, +E> = Ok(value: T) | Err(error: E)
}
