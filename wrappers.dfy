/** Option and Result, the two wrappers the rest of the model returns. */
module Wrappers {

  datatype Option<+T> = None | Some(value: T)

  /** The value of a Python expression that either produces a value or raises. */
  datatype Result<+T, +E> = Ok(value: T) | Err(error: E)
}
