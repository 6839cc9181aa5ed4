/** Option and Result, the shapes of the decoder's `io::Result<Option<Request>>`. */
module Wrappers {

  datatype Option<+T> = None | Some(value: T)

  datatype Result<+T, +E> = Ok(value: T) | Err(error: E)
}
