/** Failure-carrying values shared by every module of the model. */
module Base {

  datatype Option<+T> = None | Some(value: T)

  /** A computation that yields a `T` or an error message (Rust's `Result<T, E>`
      where only the `Display` text of `E` is observable). */
  datatype Result<+T> = Ok(value: T) | Err(error: string)

  /** A computation that yields nothing on success (Rust's `Result<(), E>`). */
  datatype Outcome = Pass | Fail(error: string)
}
