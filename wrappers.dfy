/** Option and Result, the two wrappers every module of the model uses. */
module Wrappers {
  datatype Option<+T> = None | Some(value: T)

  /** A PHP call either returns a value or raises; `Err` carries what it raises. */
  datatype Result<+T, +E> = Ok(value: T) | Err(error: E)
}
