/** Option and Result, the failure-carrying datatypes used across the model. */
module Wrappers {

  datatype Option<+T> = None | Some(value: T)

  /** The outcome of a database statement or a validation step. */
  datatype Result<+R, +E> = Ok(value: R) | Err(error: E)
}
