/** Failure-carrying return values, standing in for Rust's `Option` and `Result`. */
module Wrappers {

  datatype Option<+T> = None | Some(value: T)

  /** `Result<T, E>`: a value, or the error the operation returned early with. */
  datatype Result<+T, +E> = Ok(value: T) | Err(error: E)

  /** `Result<(), E>`: success carries no value. */
  datatype Outcome<+E> = Pass | Fail(error: E)
}
