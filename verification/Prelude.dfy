/** Shared vocabulary: optional values, bytes and the unsigned integer limits of the source. */
module Prelude {

  datatype Option<+T> = None | Some(value: T)

  type Byte = b: int | 0 <= b < 256
  type Bytes = seq<Byte>

  /** Points of a monotone clock. */
  type Instant = nat

  const U32_MAX: nat := 0xFFFF_FFFF
  const U64_MAX: nat := 0xFFFF_FFFF_FFFF_FFFF

  function Min(a: int, b: int): int {
    if a < b then a else b
  }

  /** `saturating_add(1)` on a counter whose largest value is `limit`. */
  function SaturatingInc(x: nat, limit: nat): nat {
    if x < limit then x + 1 else limit
  }
}
