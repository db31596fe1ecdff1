/** Sizes of machine words. */
module Words {
  const TWO_59: nat := 0x0800_0000_0000_0000
  const TWO_63: nat := 0x8000_0000_0000_0000
  const TWO_64: nat := 0x1_0000_0000_0000_0000
  const TWO_128: nat := 0x1_0000_0000_0000_0000_0000_0000_0000_0000
}

/** The lesser and the greater of two numbers. */
module Extremes {
  function Min(a: int, b: int): int {
    if a < b then a else b
  }

  function Max(a: int, b: int): int {
    if a < b then b else a
  }
}

/** Division with remainder. */
module Quotients {
  function Quotient(value: nat, base: nat): nat
    requires base > 0
  {
    value / base
  }

  function Rest(value: nat, base: nat): (r: nat)
    requires base > 0
    ensures r < base
  {
    value % base
  }
}
