/** Option and Result, the failure-carrying values used across the model. */
module Wrappers {

  datatype Option<+T> = None | Some(value: T)

  /** `Err` carries the message of the exception the source raises or returns. */
  datatype Result<+T> = Ok(value: T) | Err(msg: string)
}
