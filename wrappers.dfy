/** Option and Result, the two failure-carrying shapes the Rust code uses. */
module Wrappers {

  /** Rust `Option<T>`; in the front-end model it also stands for a JS property that is absent. */
  datatype Option<+T> = None | Some(value: T)

  /** Rust `Result<T, E>`. */
  datatype Result<+T, +E> = Ok(value: T) | Err(error: E)
}
