/**
 Fixed-width unsigned integers of the firmware, written out over Dafny's
 unbounded integers: the 32-bit timestamp kept by the button handler and the
 wrap-around subtraction its debounce test relies on.
 */
module Bits {

  const TWO_32: int := 0x1_0000_0000

  /** C's `uint32_t`. */
  type uint32 = x: int | 0 <= x < 0x1_0000_0000

  /** C's `uint16_t`, the declared type of an ADC sample. */
  type uint16 = x: int | 0 <= x < 0x1_0000

  /** The conversion of a wider unsigned count to `uint32_t`: it keeps the
      low 32 bits, that is, the value modulo 2^32. */
  function Truncate32(t: nat): (r: uint32)
    ensures t < TWO_32 ==> r == t
    ensures (t - r) % TWO_32 == 0
  {
    t % TWO_32
  }

  /** `a - b` on `uint32_t` operands: the mathematical difference brought back
      into [0, 2^32) by adding 2^32 when it is negative. */
  function WrapSub32(a: uint32, b: uint32): (r: uint32)
    ensures b <= a ==> r == a - b
    ensures a < b ==> r == a - b + TWO_32
    ensures (b + r) % TWO_32 == a
  {
    (a - b) % TWO_32
  }
}
