/** Failure-carrying values shared by the other modules. */
module Outcomes {

  /** A value that may be absent: a lookup miss or a text that is not a number. */
  datatype Option<+T> = None | Some(value: T)

  /** A computation that either produces a value or stops with an error. */
  datatype Result<+T, +E> = Success(value: T) | Failure(error: E)
}
