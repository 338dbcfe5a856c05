/** Value types shared by every component of the model. */
module Common {

  datatype Option<+T> = None | Some(value: T)

  datatype Result<+T, +E> = Ok(value: T) | Err(error: E)

  /** One octet of a datagram, path or file. */
  type Byte = b: int | 0 <= b < 256

  /** Rust's `u32`, the width of a flow identifier and of a uid. */
  const U32_MAX: int := 0xFFFF_FFFF

  type U32 = n: int | 0 <= n <= U32_MAX

  function Min(a: int, b: int): int {
    if a <= b then a else b
  }

  function Max(a: int, b: int): int {
    if a <= b then b else a
  }
}
