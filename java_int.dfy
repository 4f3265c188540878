/** Java's 32-bit `int`: its range and the wrap-around of its arithmetic and narrowing casts. */
module JavaInt {

  const INT_MIN: int := -0x8000_0000
  const INT_MAX: int := 0x7FFF_FFFF

  type Int32 = x: int | INT_MIN <= x <= INT_MAX

  /** A Java `byte` seen through `b & 0xFF`: its unsigned value. */
  type Byte = b: int | 0 <= b < 0x100

  /**
   * The int that two's-complement arithmetic produces for the mathematical value `x`:
   * the result of an overflowing `+`, or of `(int)` applied to a long (Number.intValue).
   */
  function Wrap32(x: int): (r: Int32)
    ensures (r - x) % 0x1_0000_0000 == 0
    ensures INT_MIN <= x <= INT_MAX ==> r == x
  {
    var m := x % 0x1_0000_0000;
    if m > INT_MAX then m - 0x1_0000_0000 else m
  }

  function Max0(x: int): (r: int)
    ensures r >= 0 && r >= x && (r == 0 || r == x)
  {
    if x < 0 then 0 else x
  }
}
