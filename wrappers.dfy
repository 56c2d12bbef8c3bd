/** Success/failure values used in place of the thrown exceptions of the script. */
module Wrappers {

  datatype Option<+T> = None | Some(value: T)

  /** The outcome of a computation that either yields a value or fails with an error. */
  datatype Result<+T, +E> = Ok(value: T) | Err(error: E)
}
