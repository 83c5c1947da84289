/** Fixed-width unsigned arithmetic as Go performs it: every uint64 result is taken modulo 2^64. */
module Words {

  const TWO_64: nat := 0x1_0000_0000_0000_0000
  const TWO_128: nat := 0x1_0000_0000_0000_0000_0000_0000_0000_0000

  type uint64 = x: nat | x < 0x1_0000_0000_0000_0000
  type uint128 = x: nat | x < 0x1_0000_0000_0000_0000_0000_0000_0000_0000

  /** The uint64 that an unbounded result wraps to. */
  function Wrap(x: int): uint64 {
    x % TWO_64
  }

  /** Addition and subtraction of two uint64 values, wrapping around. */
  function Add64(x: uint64, y: uint64): uint64 {
    if x + y < TWO_64 then x + y else x + y - TWO_64
  }

  function Sub64(x: uint64, y: uint64): uint64 {
    if x >= y then x - y else x - y + TWO_64
  }

  /** Addition of two 128-bit values, wrapping around. */
  function Add128(x: uint128, y: uint128): uint128 {
    if x + y < TWO_128 then x + y else x + y - TWO_128
  }

  lemma {:induction false} WrapSmall(x: uint64)
    ensures Wrap(x) == x
  {}

  lemma {:induction false} WrapAdd(x: int, y: int)
    ensures Add64(Wrap(x), Wrap(y)) == Wrap(x + y)
  {
    assert x + y == (x / TWO_64 + y / TWO_64) * TWO_64 + (Wrap(x) + Wrap(y));
  }
}
