/** Machine-width integers and the failure-carrying datatypes shared by the model. */
module Wrappers {

  /** Rust's `u8`. */
  type u8 = x: int | 0 <= x < 0x100

  /** Rust's `u16`. */
  type u16 = x: int | 0 <= x < 0x1_0000

  /** Rust's `Option<T>`. */
  datatype Option<T> = None | Some(value: T)

  /** Rust's `Result<T, E>`. */
  datatype Result<T, E> = Ok(value: T) | Err(error: E)

  /** `a | b` on two bytes. */
  function Or8(a: u8, b: u8): u8 { ((a as bv8) | (b as bv8)) as u8 }

  /** `a & b` on two bytes. */
  function And8(a: u8, b: u8): u8 { ((a as bv8) & (b as bv8)) as u8 }

  /** `a ^ b` on two bytes. */
  function Xor8(a: u8, b: u8): u8 { ((a as bv8) ^ (b as bv8)) as u8 }
}
