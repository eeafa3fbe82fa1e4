/** Option and Result, the value-level stand-ins for Python's None and raised exceptions. */
module Wrappers {

  datatype Option<+T> = None | Some(value: T)

  /** Ok carries a value; Err stands for an exception that the caller catches. */
  datatype Result<+T, +E> = Ok(value: T) | Err(error: E)
}
