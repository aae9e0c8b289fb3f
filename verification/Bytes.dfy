/**
 Bytes, 32-bit integers and their little-endian representation.
*/
module Bytes {
  type Byte = x: int | 0 <= x < 0x100
  type Int32 = x: int | -0x8000_0000 <= x < 0x8000_0000
  type Text = seq<Byte>

  datatype Option<+T> = None | Some(value: T)

  const NUL: Byte := 0
  const NEWLINE: Byte := 10
  const HASH: Byte := 35
  const COMMA: Byte := 44
  const MINUS: Byte := 45
  const ZERO: Byte := 48
  const SEMICOLON: Byte := 59

  function Unsigned(x: Int32): int { if x < 0 then x + 0x1_0000_0000 else x }

  function IntToChar(x: Int32): (b: Text)
    ensures |b| == 4
  {
    var u := Unsigned(x);
    [u % 0x100, u / 0x100 % 0x100, u / 0x1_0000 % 0x100, u / 0x100_0000]
  }

  function Weighted(b0: int, b1: int, b2: int, b3: int): int {
    b0 + 0x100 * b1 + 0x1_0000 * b2 + 0x100_0000 * b3
  }

  function CharToInt(b: Text): Int32
    requires |b| == 4
  {
    var u := Weighted(b[0], b[1], b[2], b[3]);
    if u >= 0x8000_0000 then u - 0x1_0000_0000 else u
  }

  /** The byte at offset k counts 256 to the power k, and a negative number is kept modulo 2 to the power 32. */
  lemma LowByteFirst(x: Int32)
    ensures var b := IntToChar(x);
      var b0: int, b1: int, b2: int, b3: int, v: int := b[0], b[1], b[2], b[3], x;
      b0 + 256 * b1 + 65536 * b2 + 16777216 * b3 == if v < 0 then v + 4294967296 else v
  {
    Digits(Unsigned(x));
  }

  lemma IntRoundTrip(x: Int32)
    ensures CharToInt(IntToChar(x)) == x
  {
    Digits(Unsigned(x));
  }

  lemma Digits(u: int)
    requires 0 <= u < 0x1_0000_0000
    ensures u == u % 0x100 + 0x100 * (u / 0x100 % 0x100) + 0x1_0000 * (u / 0x1_0000 % 0x100)
      + 0x100_0000 * (u / 0x100_0000)
  {
    var a := u / 0x100;
    var b := a / 0x100;
    assert u / 0x1_0000 == b;
    assert u / 0x100_0000 == b / 0x100;
  }

  lemma CharRoundTrip(b: Text)
    requires |b| == 4
    ensures IntToChar(CharToInt(b)) == b
  {
    var b0: int, b1: int, b2: int, b3: int := b[0], b[1], b[2], b[3];
    var u := Weighted(b0, b1, b2, b3);
    assert Unsigned(CharToInt(b)) == u;
    assert u % 0x100 == b0;
    assert u / 0x100 == b1 + 0x100 * b2 + 0x1_0000 * b3;
    assert u / 0x1_0000 == b2 + 0x100 * b3;
    assert u / 0x100_0000 == b3;
  }
}
