/** Failure-compatible wrappers used by every module of the model. */
module Wrappers {

  /** A slot that may be unbound: Python's `None` or a value. */
  datatype Option<+T> = None | Some(value: T)

  /** A call that either returns a value or raises an error. */
  datatype Result<+T, +E> = Success(value: T) | Failure(error: E)
}
