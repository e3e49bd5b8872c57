/** Failure-compatible wrappers shared by the whole model. */
module Wrappers {

  /** A value that may be missing (Python's `None`, or a regex that did not match). */
  datatype Option<+T> = None | Some(value: T)

  /** The outcome of an operation that may raise an exception instead of returning. */
  datatype Result<+T, +E> = Ok(value: T) | Err(error: E)
}
