/** The two result shapes every other module shares: a value that may be missing, and a value or a failure. */
module Wrappers {

  datatype Option<+T> = None | Some(value: T)

  datatype Result<+T, +E> = Ok(value: T) | Err(error: E)
}
