/** Fixed-width integers of the metrics records, as ranges of Dafny's unbounded `int`.
    Rust's `checked_add(..).expect("overflow")` aborts the process when the sum leaves the
    range; here that abort is a precondition of the checked additions below. */
module Ints {

  const U64_MAX: int := 0xFFFF_FFFF_FFFF_FFFF
  const I128_MIN: int := -0x8000_0000_0000_0000_0000_0000_0000_0000
  const I128_MAX: int := 0x7FFF_FFFF_FFFF_FFFF_FFFF_FFFF_FFFF_FFFF

  type u64 = x: int | 0 <= x <= U64_MAX
  type i128 = x: int | I128_MIN <= x <= I128_MAX

  /** `a.checked_add(b).expect("overflow")` on `u64`: defined only when no overflow happens. */
  function CheckedAddU64(a: u64, b: u64): u64
    requires a + b <= U64_MAX
  {
    a + b
  }

  /** `a.checked_add(b).expect("overflow")` on `i128`: the sum may leave the range at either end. */
  function CheckedAddI128(a: i128, b: i128): i128
    requires I128_MIN <= a + b <= I128_MAX
  {
    a + b
  }
}
