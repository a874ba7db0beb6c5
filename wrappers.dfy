// Failure-carrying values shared by the modules of this model.
module Wrappers {

  /** A value that may be absent (Python's None, JavaScript's undefined/null). */
  datatype Option<+T> = None | Some(value: T)

  /** The outcome of an operation that can raise. */
  datatype Result<+T, +E> = Ok(value: T) | Err(error: E)
}
