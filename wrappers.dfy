/** Failure-compatible wrappers shared by the other modules. */
module Wrappers {

  /** An optional value: `None` stands for Go's "not ok" result. */
  datatype Option<+T> = None | Some(value: T)

  /** The outcome of an operation that returns either a value or a Go `error`. */
  datatype Result<+R, +E> = Success(value: R) | Failure(error: E)
}
