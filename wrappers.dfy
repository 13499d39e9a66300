/** Option and Result, used for the optional request start time and for the
    exception that `process` raises on an item that is not a mapping. */
module Wrappers {

  datatype Option<+T> = None | Some(value: T)

  datatype Result<+T, +E> = Ok(value: T) | Err(error: E)
}
