/** Go's fixed-width integers, as far as the change-config task depends on them. */
module FixedWidth {

  const Int64Min: int := -0x8000_0000_0000_0000
  const Int64Max: int := 0x7fff_ffff_ffff_ffff
  const TwoTo64: int := 0x1_0000_0000_0000_0000

  /** Go's int64, and Go's int on the 64-bit platforms the service runs on. */
  type Int64 = x: int | -0x8000_0000_0000_0000 <= x <= 0x7fff_ffff_ffff_ffff

  /** Go's int8: the width of a guest's stored vCPU count. */
  type Int8 = x: int | -128 <= x <= 127

  /** The value Go's int64 arithmetic yields when the exact result is x:
      x itself when it fits, otherwise x reduced modulo 2^64 into the signed range. */
  function Wrap64(x: int): (r: Int64)
    ensures Int64Min <= x <= Int64Max ==> r == x
    ensures (x - r) % TwoTo64 == 0
  {
    (x - Int64Min) % TwoTo64 + Int64Min
  }

  /** Go's conversion int8(x) of an int64: the low eight bits read as two's complement,
      so a value outside -128..127 is not kept. */
  function ToInt8(x: Int64): (r: Int8)
    ensures -128 <= x <= 127 ==> r == x
    ensures (x - r) % 256 == 0
  {
    (x + 128) % 256 - 128
  }
}
