/** Failure-compatible wrappers used for the C++ code's null results and thrown exceptions. */
module Wrappers {

  /** A value that may be absent (a null pointer, a missing symbol). */
  datatype Option<+T> = None | Some(value: T)

  /** The outcome of an operation that either returns a value or throws. */
  datatype Result<+T, +E> = Ok(value: T) | Err(error: E)
}
