/** Fixed-width integer behaviour of C++ that the decoders rely on: two's
    complement truncation to int16_t / int8_t, truncating division and the
    (signed) value of a `char`. */
module CInt {

  const TWO8: int := 0x100
  const TWO16: int := 0x1_0000
  const TWO32: int := 0x1_0000_0000
  const TWO64: int := 0x1_0000_0000_0000_0000

  /** `unsigned(-1)`, the all-ones 32-bit value. */
  const UINT_MAX: nat := 0xFFFF_FFFF

  predicate IsInt16(x: int) { -0x8000 <= x < 0x8000 }
  predicate IsInt8(x: int) { -0x80 <= x < 0x80 }

  /** Conversion of any integer to `int16_t`: keep the low 16 bits and read
      them as a signed number. */
  function Wrap16(x: int): (r: int)
    ensures IsInt16(r)
    ensures (x - r) % TWO16 == 0
    ensures IsInt16(x) ==> r == x
  {
    var m := x % TWO16;
    if m < 0x8000 then m else m - TWO16
  }

  /** Conversion of any integer to `int8_t`. */
  function Wrap8(x: int): (r: int)
    ensures IsInt8(r)
    ensures (x - r) % TWO8 == 0
    ensures IsInt8(x) ==> r == x
  {
    var m := x % TWO8;
    if m < 0x80 then m else m - TWO8
  }

  /** Conversion of any integer to a 32-bit `unsigned`. */
  function WrapU32(x: int): (r: nat)
    ensures r < TWO32
    ensures (x - r) % TWO32 == 0
    ensures 0 <= x < TWO32 ==> r == x
  {
    x % TWO32
  }

  /** C++ integer division, which truncates toward zero (Dafny's `/` is
      Euclidean). */
  function CDiv(a: int, b: int): (q: int)
    requires b > 0
    ensures a >= 0 ==> q == a / b
    ensures a < 0 ==> q == -((-a) / b)
    ensures q * b <= a < q * b + b || q * b - b < a <= q * b
  {
    if a >= 0 then a / b else -((-a) / b)
  }

  function Abs(x: int): (r: nat)
    ensures r == x || r == -x
  {
    if x < 0 then -x else x
  }

  /** The value of a `char` (signed on the platforms the code targets) when it
      takes part in integer arithmetic; each Dafny `char` of a line stands for
      one byte of the file. */
  function CharCode(c: char): (v: int)
    ensures -0x80 <= v < 0x80
    ensures c as int < 0x80 ==> v == c as int
  {
    var b := c as int % TWO8;
    if b < 0x80 then b else b - TWO8
  }

  /** The low 16 bits of an integer as a bit-vector. */
  function ToBv16(x: int): bv16
  {
    (x % TWO16) as bv16
  }

  /** A 16-bit pattern read as `int16_t`. */
  function Signed16(b: bv16): (r: int)
    ensures IsInt16(r)
  {
    Wrap16(b as int)
  }

  /** The low 8 bits of an integer as a bit-vector. */
  function ToBv8(x: int): bv8
  {
    (x % TWO8) as bv8
  }

  /** An 8-bit pattern read as `int8_t`. */
  function Signed8(b: bv8): (r: int)
    ensures IsInt8(r)
  {
    Wrap8(b as int)
  }

  /** Truncation of a `double` to an integer type (toward zero). */
  function TruncReal(r: real): int
  {
    if r >= 0.0 then r.Floor else -((-r).Floor)
  }
}
