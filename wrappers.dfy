/** Failure-compatible wrappers shared by the other modules. */
module Wrappers {

  /** An optional value: the engine's nullable pointers and "not found" answers. */
  datatype Option<+T> = None | Some(value: T)

  /** A value or an error. */
  datatype Result<+R, +E> = Success(value: R) | Failure(error: E)
}
