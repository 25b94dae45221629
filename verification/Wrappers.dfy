/** Failure-compatible datatypes for the `Option` and `Result` values of the Rust source. */
module Wrappers {

  datatype Option<+T> = None | Some(value: T)

  datatype Result<+T> = Ok(value: T) | Err(message: string)
}
