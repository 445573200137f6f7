/**
 * The few Rust standard-library types the model is written in: unsigned
 * bytes, `Option` and `Result`.
 */
module RustTypes {

  /** An unsigned byte, Rust's `u8`. */
  newtype u8 = x: int | 0 <= x < 0x100

  /** Rust's `Option<T>`. */
  datatype Option<+T> = None | Some(value: T)

  /** Rust's `Result<T, E>`: a value or an error, never both. */
  datatype Result<+T, +E> = Ok(value: T) | Err(error: E)
}
