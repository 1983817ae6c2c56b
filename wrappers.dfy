/** Option and Result, the failure-carrying values the model returns in place of Go's nil pointers and error values. */
module Wrappers {

  datatype Option<+T> = None | Some(value: T)

  datatype Result<+T, +E> = Ok(value: T) | Err(error: E)
}
