/** Option and Result datatypes used across the model. */
module Wrappers {

  /** A value that may be absent: a missing JSON field, an unset session key. */
  datatype Option<+T> = None | Some(value: T)

  /** The outcome of a step that either yields a value or reports an error. */
  datatype Result<+R, +E> = Ok(value: R) | Err(error: E)
}
