/** Value types shared by every part of the model: Rust's `Option` and
    `Result`, the fixed-width unsigned integers the source uses, and an
    opaque stand-in for `f64`. */
module Base {

  datatype Option<+T> = None | Some(value: T) {
    /** `Option::unwrap_or`. */
    function UnwrapOr(default: T): T {
      match this
      case Some(v) => v
      case None => default
    }
  }

  datatype Result<+T, +E> = Ok(value: T) | Err(error: E)

  /** Rust's `u32`. */
  newtype U32 = x: int | 0 <= x < 0x1_0000_0000

  /** Rust's `u64`. */
  newtype U64 = x: int | 0 <= x < 0x1_0000_0000_0000_0000

  /** An IEEE 754 double, kept as its bit pattern: prices and totals are only
      ever copied, never computed with. */
  datatype F64 = F64(bits: bv64)
}
