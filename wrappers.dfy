/** Failure-compatible wrappers used by the buffer model. */
module Wrappers {

  /** An absent or present value: `poll` returns `None` when it times out. */
  datatype Option<+T> = None | Some(value: T)

  /** A normal result or the exception a Java call would throw. */
  datatype Result<+R, +E> = Success(value: R) | Failure(error: E)
}
