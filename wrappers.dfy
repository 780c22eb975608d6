/** The Option, Result and Outcome types of the worker API model. */
module Wrappers {

  /** A value that may be absent (a nullable foreign key, a missing dictionary entry). */
  datatype Option<+T> = None | Some(value: T)

  /** The value an API call returns, or the error it raises. */
  datatype Result<+T, +E> = Ok(value: T) | Err(error: E)

  /** The outcome of an API call that returns nothing: it passes or raises an error. */
  datatype Outcome<+E> = Pass | Fail(error: E)
}
