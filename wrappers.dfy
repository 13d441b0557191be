/** The optional-value and success-or-error types used throughout the model. */
module Wrappers {

  /** A value that may be absent (a JavaScript key that is missing or undefined). */
  datatype Option<+T> = None | Some(value: T)

  /** The outcome of an operation that either answers or throws with a message. */
  datatype Result<+T, +E> = Ok(value: T) | Err(error: E)
}
