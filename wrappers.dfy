/** Option and Result, the shapes the Rust code uses for "no value yet" and for errors. */
module Wrappers {
  datatype Option<T> = None | Some(value: T)

  datatype Result<T, E> = Ok(value: T) | Err(error: E)
}
