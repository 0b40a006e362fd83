/** C integer types and the Option wrapper shared by the whole model. */
module CTypes {

  /** 2^32: the modulus of C's `uint32_t` arithmetic. */
  const UINT32_LIMIT: int := 0x1_0000_0000
  const UINT32_MAX: int := 0xFFFF_FFFF

  type uint32 = x: int | 0 <= x < 0x1_0000_0000
  type byte = x: int | 0 <= x < 0x100

  datatype Option<+T> = None | Some(value: T)

  /** Multiplication of two `uint32_t` values as C performs it: the exact
      product reduced modulo 2^32. */
  function MulU32(a: uint32, b: uint32): (r: uint32)
    ensures a * b < UINT32_LIMIT ==> r == a * b
    ensures (a * b - r) % UINT32_LIMIT == 0
  {
    (a * b) % UINT32_LIMIT
  }
}
