/**
 * Shared vocabulary of the model: an optional value, the C integer widths the
 * library uses, and the C conversions between them (which wrap modulo a power
 * of two, reading the bits as two's complement for the signed types).
 */
module Common {

  datatype Option<T> = None | Some(value: T)

  const TWO8: int := 0x100
  const TWO16: int := 0x1_0000
  const TWO32: int := 0x1_0000_0000

  /** uint8_t, uint16_t and uint32_t values */
  type Byte = x: int | 0 <= x < 0x100
  type U16 = x: int | 0 <= x < 0x1_0000
  type U32 = x: int | 0 <= x < 0x1_0000_0000

  /** int8_t, int16_t and int32_t values */
  type I8 = x: int | -0x80 <= x < 0x80
  type I16 = x: int | -0x8000 <= x < 0x8000
  type I32 = x: int | -0x8000_0000 <= x < 0x8000_0000

  /** Conversion of any integer to uint8_t: keep the low 8 bits. */
  function ToU8(x: int): (r: Byte)
    ensures (x - r) % TWO8 == 0
    ensures 0 <= x < TWO8 ==> r == x
  {
    x % TWO8
  }

  /** Conversion of any integer to uint32_t: keep the low 32 bits. */
  function ToU32(x: int): (r: U32)
    ensures (x - r) % TWO32 == 0
    ensures 0 <= x < TWO32 ==> r == x
  {
    x % TWO32
  }

  /** Conversion to int8_t: the low 8 bits read as two's complement. */
  function ToI8(x: int): (r: I8)
    ensures (x - r) % TWO8 == 0
    ensures -0x80 <= x < 0x80 ==> r == x
  {
    var low := x % TWO8;
    if low < 0x80 then low else low - TWO8
  }

  /** Conversion to int16_t: the low 16 bits read as two's complement. */
  function ToI16(x: int): (r: I16)
    ensures (x - r) % TWO16 == 0
    ensures -0x8000 <= x < 0x8000 ==> r == x
  {
    var low := x % TWO16;
    if low < 0x8000 then low else low - TWO16
  }

  /** Conversion to int32_t: the low 32 bits read as two's complement. */
  function ToI32(x: int): (r: I32)
    ensures (x - r) % TWO32 == 0
    ensures -0x8000_0000 <= x < 0x8000_0000 ==> r == x
  {
    var low := x % TWO32;
    if low < 0x8000_0000 then low else low - TWO32
  }

  /** The value a C bit-field of width one keeps: the low bit. */
  function LowBit(x: int): (r: int)
    ensures r == 0 || r == 1
    ensures (x - r) % 2 == 0
  {
    x % 2
  }
}
