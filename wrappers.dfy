/** Failure-carrying wrappers used by the model: an optional value, a value-or-error result, and a pass/fail outcome. */
module Wrappers {

  datatype Option<+T> = None | Some(value: T)

  datatype Result<+R, +E> = Success(value: R) | Failure(error: E)

  /** The outcome of a call whose only interesting result is whether it raised, and with which message. */
  datatype Outcome<+E> = Pass | Fail(error: E)
}
