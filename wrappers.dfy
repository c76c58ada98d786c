/** Option and Result values used for the source's `None` results and its raised exceptions. */
module Wrappers {

  datatype Option<+T> = None | Some(value: T)

  /** `Err` stands for an exception that the source raises and does not catch. */
  datatype Result<+T, +E> = Ok(value: T) | Err(error: E)
}
