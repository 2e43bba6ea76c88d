/** Java's fixed-width integer conversions, written out over unbounded integers. */
module JavaInts {
  const INT_MIN: int := -0x8000_0000
  const INT_MAX: int := 0x7fff_ffff

  predicate IsInt(x: int) { INT_MIN <= x <= INT_MAX }

  /** The value 32-bit `int` arithmetic yields for the mathematical result `x`. */
  function WrapInt(x: int): (r: int)
    ensures IsInt(r)
    ensures IsInt(x) ==> r == x
  {
    (x - INT_MIN) % 0x1_0000_0000 + INT_MIN
  }

  /** The narrowing cast `(byte) x`. */
  function ToByte(x: int): (b: int)
    ensures -128 <= b <= 127
    ensures -128 <= x <= 127 ==> b == x
  {
    (x + 128) % 256 - 128
  }
}
