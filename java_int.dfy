/**
 * Java's 32-bit `int`: the values it holds and the wrap-around of its arithmetic.
 */
module JavaInt {
  type I32 = x: int | -0x8000_0000 <= x < 0x8000_0000

  /** Java int arithmetic: the value modulo 2^32, read back as a signed int. */
  function Wrap32(v: int): (w: I32)
    ensures -0x8000_0000 <= v < 0x8000_0000 ==> w == v
    ensures (w - v) % 0x1_0000_0000 == 0
  {
    var m := v % 0x1_0000_0000;
    if m >= 0x8000_0000 then m - 0x1_0000_0000 else m
  }
}
