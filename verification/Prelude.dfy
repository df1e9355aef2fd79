/** Shared result types and the integer widths the daemon's numbers travel in. */
module Prelude {

  datatype Option<+T> = None | Some(value: T)

  datatype Result<+T, +E> = Ok(value: T) | Err(error: E)

  const U32_MAX: nat := 0xFFFF_FFFF
  const U64_MAX: nat := 0xFFFF_FFFF_FFFF_FFFF
  const I64_MAX: nat := 0x7FFF_FFFF_FFFF_FFFF

  type U32 = n: int | 0 <= n <= 0xFFFF_FFFF
  type I32 = n: int | -0x8000_0000 <= n <= 0x7FFF_FFFF
}
