/** Option and Result, the shapes Rust's Option<T> and Result<T, E> take in this model. */
module Wrappers {

  datatype Option<+T> = None | Some(value: T)

  datatype Result<+T, +E> = Ok(value: T) | Err(error: E)
}
