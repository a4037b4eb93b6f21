/** Option and Result values used by the review pipeline model. */
module Wrappers {

  datatype Option<+T> = None | Some(value: T)

  /** A stage either produces a value or raises an error. */
  datatype Result<+T, +E> = Ok(value: T) | Err(error: E)
}
