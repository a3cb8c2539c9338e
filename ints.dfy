/** Fixed-width integers of the Rust code, as bounded subsets of int. */
module Ints {
  /** Rust's `u8`. */
  type uint8 = x: int | 0 <= x < 0x100

  const UINT8_MAX: uint8 := 0xFF
}
