/** The two-case outcome types of Rust's standard library. */
module Wrappers {

  datatype Option<+T> = None | Some(value: T)

  /** Rust's `Result<T, E>`: the success payload or the failure. */
  datatype Result<+T, +E> = Ok(value: T) | Err(error: E)
}
