/** Option and Result, the two failure-carrying shapes used throughout the model. */
module Wrappers {

  datatype Option<+T> = None | Some(value: T)

  /** A thrown JavaScript Error becomes `Err` carrying its message. */
  datatype Result<+T, +E> = Ok(value: T) | Err(error: E)
}
