/** Optional values and results: an optional field, the result of a
    `definition` (a directive string or the error it raises), and the outcome
    of a validating setter. */
module Wrappers {

  /** A field that may be unset (Ruby's nil). */
  datatype Option<+T> = None | Some(value: T)

  /** A value, or the error that was raised instead of producing it. */
  datatype Result<+T, +E> = Success(value: T) | Failure(error: E)

  /** A step that either passes or raises an error and produces nothing. */
  datatype Outcome<+E> = Pass | Fail(error: E)
}
