/** Option and Result, the two failure-carrying shapes the model uses. */
module Wrappers {

  datatype Option<+T> = None | Some(value: T)

  /** An outcome that either carries a value or an error. */
  datatype Result<+T, +E> = Ok(value: T) | Err(error: E)
}
