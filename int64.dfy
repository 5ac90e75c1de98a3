/** Go's `int64`: the type of the retention count and of the block store's
    size, height and base. Arithmetic on it wraps around (two's complement). */
module Int64 {

  const MIN: int := -0x8000_0000_0000_0000
  const MAX: int := 0x7FFF_FFFF_FFFF_FFFF

  /** 2^64, the modulus of int64 arithmetic. */
  const MODULUS: int := 0x1_0000_0000_0000_0000

  newtype int64 = x: int | -0x8000_0000_0000_0000 <= x < 0x8000_0000_0000_0000

  /** Go's `a - b` on int64: the exact difference when it fits, otherwise the
      difference wrapped into the int64 range. */
  function Sub(a: int64, b: int64): (r: int64)
    ensures MIN <= a as int - b as int <= MAX ==> r as int == a as int - b as int
    ensures (r as int - (a as int - b as int)) % MODULUS == 0
  {
    var d := a as int - b as int;
    if d < MIN then (d + MODULUS) as int64
    else if d > MAX then (d - MODULUS) as int64
    else d as int64
  }
}
