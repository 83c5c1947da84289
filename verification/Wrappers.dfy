module Wrappers {

  datatype Option<+T> = None | Some(value: T)

  /** A Go result pair: a value, or the error that replaces it. */
  datatype Result<+T, +E> = Ok(value: T) | Err(error: E)
}
