/** Shared vocabulary: optional values, 64-bit unsigned integers, identifiers. */
module Prelude {

  datatype Option<+T> = None | Some(value: T)

  const U64: int := 0x1_0000_0000_0000_0000

  /** Go's uint64; every operation that can wrap says so with `% U64`. */
  type uint64 = n: int | 0 <= n < 0x1_0000_0000_0000_0000

  type Id = string
}
