/** Option and Result, as used throughout the model. */
module Wrappers {

  /** A value that may be absent (JavaScript's `undefined` where the source uses it). */
  datatype Option<+T> = None | Some(value: T)

  /** The outcome of an operation that may throw: `Err` carries what was thrown. */
  datatype Result<+T, +E> = Ok(value: T) | Err(error: E)
}
