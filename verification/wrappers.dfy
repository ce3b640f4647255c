/** Failure-carrying values used by the cursor operations: Rust's `Option`
    and `Result`, with the constructor names Rust gives them. */
module Wrappers {

  /** `Option<T>`: `Some(value)` or `None`. */
  datatype Option<+T> = None | Some(value: T)

  /** `Result<T, E>`: `Ok(value)` or `Err(error)`. */
  datatype Result<+T, +E> = Ok(value: T) | Err(error: E)
}
