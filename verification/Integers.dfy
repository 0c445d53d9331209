/** Machine integers. */
module Integers {

  const U64_RANGE := 0x1_0000_0000_0000_0000

  newtype u8 = x: int | 0 <= x < 256

  newtype u64 = x: int | 0 <= x < U64_RANGE

  const U64_MAX: u64 := 0xFFFF_FFFF_FFFF_FFFF

  function SaturatingIncrement(x: u64): u64 {
    if x == U64_MAX then x else x + 1
  }
}
