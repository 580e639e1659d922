/** Failure-compatible wrappers shared by every module of the model. */
module Wrappers {

  /** Python's `None` versus a present value. */
  datatype Option<+T> = None | Some(value: T)

  /** A value, or the exception that a Python call raised instead of returning it. */
  datatype Result<+T, +E> = Ok(value: T) | Err(error: E)
}
