/** Option and Result, the two failure-carrying wrappers the handlers return. */
module Wrappers {

  datatype Option<+T> = None | Some(value: T)

  /** Ok carries a handler's value; Err carries the error it raises. */
  datatype Result<+T, +E> = Ok(value: T) | Err(error: E)
}
