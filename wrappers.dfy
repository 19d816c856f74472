/** The optional-value and result datatypes the rest of the model uses. */
module Wrappers {

  /** A value that may be absent: the model's `T | null`. */
  datatype Option<+T> = None | Some(value: T)

  /** Either a value or an error. */
  datatype Result<+T, +E> = Ok(value: T) | Err(error: E)
}
