/** Failure-carrying datatypes shared by the model: an optional value, a
    value-or-error result, and a pass-or-error outcome. */
module Wrappers {

  /** A value that may be absent (JavaScript `undefined` / `null`). */
  datatype Option<+T> = None | Some(value: T)

  /** Either a returned value or a thrown error. */
  datatype Result<+T, +E> = Success(value: T) | Failure(error: E)

  /** A check that either passes or reports one error. */
  datatype Outcome<+E> = Pass | Fail(error: E)
}
