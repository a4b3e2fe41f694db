/**
 * Optional values (the model's stand-in for JavaScript's `undefined` and
 * `NaN`) and results (a value, or the message of a thrown error).
 */
module Wrappers {

  datatype Option<+T> = None | Some(value: T)

  /** A value, or the message of the error thrown instead. */
  datatype Result<+R, +E> = Success(value: R) | Failure(error: E)
}
