/** Rust's `Option` and `Result`, as the rest of the model uses them. */
module Common {

  datatype Option<T> = None | Some(value: T)

  datatype Result<T, E> = Ok(value: T) | Err(error: E)

  /** Unsigned integer widths of the fields that are stored as `u8`, `u16` and `u32`. */
  type u8 = x: int | 0 <= x < 0x100
  type u16 = x: int | 0 <= x < 0x1_0000
  type u32 = x: int | 0 <= x < 0x1_0000_0000
}
