/** Option and Result as the Rust core uses them: every error it returns is a String. */
module Wrappers {
  datatype Option<T> = None | Some(value: T)

  datatype Result<T> = Ok(value: T) | Err(error: string)
}
