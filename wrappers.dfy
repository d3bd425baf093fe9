/** Option and Result datatypes used for the error paths of the model. */
module Wrappers {

  datatype Option<+T> = None | Some(value: T)

  /** `Ok` carries a value; `Err` carries the condition the source raises. */
  datatype Result<+T, +E> = Ok(value: T) | Err(error: E)
}
