/** Error results, the Dafny counterpart of Rust's `Result<T, String>`, and optional values. */
module Wrappers {
  datatype Result<T> = Ok(value: T) | Err(error: string)

  /** A value that may be absent, as an optional property of a JavaScript object is. */
  datatype Option<T> = None | Some(value: T)
}
