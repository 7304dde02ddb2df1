/**
 * The Java primitive types the dialog stores, and the one piece of Java
 * arithmetic it performs (integer division, which truncates toward zero).
 */
module JavaTypes {

  const MinInt: int := -0x8000_0000
  const MaxInt: int := 0x7FFF_FFFF

  /** Java `int`. */
  type Int32 = x: int | MinInt <= x <= MaxInt

  /** Java `byte`. */
  type Int8 = x: int | -0x80 <= x <= 0x7F

  /**
   * Java `float`, kept as its raw IEEE-754 bit pattern. The dialog never
   * computes with its float field; it only stores, copies and forwards it.
   */
  datatype Float32 = Float32(bits: bv32)

  /** `0.5f` */
  const Half: Float32 := Float32(0x3F00_0000)

  /** The exceptions the modelled code throws. */
  datatype Exception = NullPointerException(message: string)

  /**
   * Java's `a / 4` on an `int`: the quotient is rounded toward zero, unlike
   * Dafny's Euclidean `/`. Four is the only divisor the dialog uses.
   */
  function QuarterOf(a: int): (q: int)
    ensures 0 <= a ==> 0 <= 4 * q <= a < 4 * q + 4
    ensures a < 0 ==> 4 * q - 4 < a <= 4 * q <= 0
  {
    if a >= 0 then a / 4 else -((-a) / 4)
  }
}
