/** The fixed-width integers of the modelled code (Java `int`, JNI `jint`/`jlong`,
    C `int`, `uint32_t`, `uint64_t`) and the conversions between them.
    Android runs on two's-complement targets, so a narrowing or signedness
    conversion keeps the value modulo 2^width. */
module Ints {

  const TWO_31: int := 0x8000_0000
  const TWO_32: int := 0x1_0000_0000
  const TWO_63: int := 0x8000_0000_0000_0000
  const TWO_64: int := 0x1_0000_0000_0000_0000

  /** Java `int`, JNI `jint`, C `int`. */
  type int32 = x: int | -0x8000_0000 <= x < 0x8000_0000

  /** JNI `jlong`. */
  type int64 = x: int | -0x8000_0000_0000_0000 <= x < 0x8000_0000_0000_0000

  /** C `uint16_t`. */
  type uint16 = x: int | 0 <= x < 0x1_0000

  /** C `uint32_t`. */
  type uint32 = x: int | 0 <= x < 0x1_0000_0000

  /** C `uint64_t`. */
  type uint64 = x: int | 0 <= x < 0x1_0000_0000_0000_0000

  /** Conversion of any integer to `uint32_t`: reduction modulo 2^32. */
  function ToUint32(x: int): (r: uint32)
    ensures (x - r) % TWO_32 == 0
    ensures 0 <= x < TWO_32 ==> r == x
  {
    x % TWO_32
  }

  /** Conversion of any integer to `uint64_t`: reduction modulo 2^64. */
  function ToUint64(x: int): (r: uint64)
    ensures (x - r) % TWO_64 == 0
    ensures 0 <= x < TWO_64 ==> r == x
  {
    x % TWO_64
  }

  /** Conversion of any integer to a 32-bit `int`: the two's-complement value
      congruent to `x` modulo 2^32. */
  function ToInt32(x: int): (r: int32)
    ensures (x - r) % TWO_32 == 0
    ensures -TWO_31 <= x < TWO_31 ==> r == x
  {
    var m := x % TWO_32;
    if m < TWO_31 then m else m - TWO_32
  }

  /** A signed 32-bit value survives the trip through `uint32_t`. */
  lemma Int32ThroughUint32(x: int32)
    ensures ToInt32(ToUint32(x)) == x
  {
  }

  /** An unsigned 32-bit value survives the trip through a signed `int`. */
  lemma Uint32ThroughInt32(x: uint32)
    ensures ToUint32(ToInt32(x)) == x
  {
  }
}
