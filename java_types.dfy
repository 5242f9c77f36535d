/**
 * The Java primitive types the configuration is built from, with their
 * widths written out: Dafny integers are unbounded, Java's are not.
 */
module JavaTypes {

  /** Number of distinct values of a Java `int`. */
  const Int32Modulus: int := 0x1_0000_0000

  /** A Java `int`: 32-bit two's complement. */
  newtype int32 = x: int | -0x8000_0000 <= x < 0x8000_0000

  /** `Integer.MAX_VALUE` and `Integer.MIN_VALUE`. */
  const IntMaxValue: int32 := 0x7FFF_FFFF
  const IntMinValue: int32 := -0x8000_0000

  /** One octet on a `java.io` stream, as the unsigned value `b & 0xFF`. */
  newtype byte = x: int | 0 <= x < 0x100

  /** A Java `char`: one UTF-16 code unit. */
  newtype jchar = x: int | 0 <= x < 0x1_0000

  /** A non-null Java `String`: its sequence of UTF-16 code units. */
  type JString = seq<jchar>

  /**
   * The Java `int` that an exact integer result wraps to, as `int` addition
   * does on overflow: the unique `int32` congruent to `x` modulo 2^32.
   */
  function Wrap32(x: int): (r: int32)
    ensures (r as int - x) % Int32Modulus == 0
    ensures IntMinValue as int <= x <= IntMaxValue as int ==> r as int == x
  {
    ((x + 0x8000_0000) % Int32Modulus - 0x8000_0000) as int32
  }
}
