/** Smaller and larger of two, and the sizes of machine integers. */
module Bounds {
  const TWO_POW_32: nat := 0x1_0000_0000
  const TWO_POW_64: nat := 0x1_0000_0000_0000_0000

  function Min(a: int, b: int): int {
    if a < b then a else b
  }

  function Max(a: int, b: int): int {
    if a < b then b else a
  }
}
