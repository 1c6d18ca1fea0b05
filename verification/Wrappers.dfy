/** Values that may be missing and calls that may fail. An error is only told apart from success. */
module Wrappers {
  datatype Option<+T> = None | Some(value: T)
  datatype Result<+T> = Ok(value: T) | Err
}
