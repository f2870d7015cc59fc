/** Failure-compatible wrappers used across the model. */
module Wrappers {

  /** A value that may be missing, as a dict lookup that found no key. */
  datatype Option<+T> = None | Some(value: T)

  /** The outcome of an operation that either returns a value or raises. */
  datatype Result<+T, +E> = Ok(value: T) | Err(error: E)
}
