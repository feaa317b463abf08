/** Option and Result, as used throughout the model. */
module Wrappers {

  datatype Option<+T> = None | Some(value: T)

  /** The outcome of one call into the data store: rows, or an error. */
  datatype Result<+T, +E> = Ok(value: T) | Err(error: E)
}
