/** Small failure-carrying datatypes shared by the other modules. */
module Wrappers {

  /** Rust's `Option<T>`. */
  datatype Option<+T> = None | Some(value: T)

  /** Rust's `Result<T, E>`, for collaborators whose answer can fail. */
  datatype Result<+T, +E> = Ok(value: T) | Err(error: E)
}
