/** Bytes and big-endian numbers, as encoding/binary writes and reads them. */
module Bytes {
  type Byte = b: int | 0 <= b < 256
  type Data = seq<Byte>

  const MOD32 := 0x1_0000_0000
  const MOD64 := 0x1_0000_0000_0000_0000

  type Uint32 = n: int | 0 <= n < MOD32
  type Uint64 = n: int | 0 <= n < MOD64
  type Int32 = n: int | -0x8000_0000 <= n < 0x8000_0000
  type Int64 = n: int | -0x8000_0000_0000_0000 <= n < 0x8000_0000_0000_0000

  /** Go's conversions between signed and unsigned integers of one width. */
  function Unsigned32(n: Int32): Uint32 {
    if n < 0 then n + MOD32 else n
  }

  function Signed32(n: Uint32): Int32 {
    if n < 0x8000_0000 then n else n - MOD32
  }

  function Unsigned64(n: Int64): Uint64 {
    if n < 0 then n + MOD64 else n
  }

  function Signed64(n: Uint64): Int64 {
    if n < 0x8000_0000_0000_0000 then n else n - MOD64
  }

  /** The low `width` bytes of a number, most significant first. */
  function BigEndian(width: nat, value: nat): (d: Data)
    ensures |d| == width
  {
    if width == 0 then [] else BigEndian(width - 1, value / 256) + [value % 256]
  }

  function Number(d: Data): nat {
    if d == [] then 0 else Number(d[..|d| - 1]) * 256 + d[|d| - 1]
  }

  function Power(width: nat): nat {
    if width == 0 then 1 else 256 * Power(width - 1)
  }

  lemma {:induction false} NumberOfBigEndian(width: nat, value: nat)
    requires value < Power(width)
    ensures Number(BigEndian(width, value)) == value
  {
    if width > 0 {
      NumberOfBigEndian(width - 1, value / 256);
      assert BigEndian(width, value)[..width - 1] == BigEndian(width - 1, value / 256);
    }
  }

  lemma {:induction false} BigEndianOfNumber(d: Data)
    ensures BigEndian(|d|, Number(d)) == d && Number(d) < Power(|d|)
  {
    if d != [] {
      BigEndianOfNumber(d[..|d| - 1]);
      assert d == d[..|d| - 1] + [d[|d| - 1]];
    }
  }

  lemma Widths()
    ensures Power(1) == 256 && Power(2) == 0x1_0000 && Power(4) == MOD32 && Power(8) == MOD64
  {
    assert Power(3) == 0x100_0000;
    assert Power(4) == 256 * Power(3);
    assert Power(5) == 256 * Power(4);
    assert Power(6) == 256 * Power(5);
    assert Power(7) == 256 * Power(6);
    assert Power(8) == 256 * Power(7);
  }

  lemma NumberOf32(value: nat)
    requires value < MOD32
    ensures Number(BigEndian(4, value)) == value
  {
    Widths();
    NumberOfBigEndian(4, value);
  }

  lemma NumberOf64(value: nat)
    requires value < MOD64
    ensures Number(BigEndian(8, value)) == value
  {
    Widths();
    NumberOfBigEndian(8, value);
  }

  lemma NumberBelow(d: Data)
    ensures |d| == 4 ==> Number(d) < MOD32
    ensures |d| == 8 ==> Number(d) < MOD64
  {
    Widths();
    BigEndianOfNumber(d);
  }

  lemma TwoBytes(a: Byte, b: Byte)
    ensures Number([a, b]) == a * 0x100 + b
  {
    assert [a, b][..1] == [a];
    assert Number([a]) == a;
  }

  /** Four bytes are a number most significant first. */
  lemma FourBytes(a: Byte, b: Byte, c: Byte, d: Byte)
    ensures Number([a, b, c, d]) == a * 0x100_0000 + b * 0x1_0000 + c * 0x100 + d
  {
    assert [a, b, c, d][..3] == [a, b, c] && [a, b, c][..2] == [a, b] && [a, b][..1] == [a];
    assert Number([a]) == a && Number([a, b]) == Number([a]) * 256 + b && Number([a, b, c]) == Number([a, b]) * 256 + c;
  }

  /** And eight are two fours. */
  lemma EightBytes(d: Data)
    requires |d| == 8
    ensures Number(d) == Number(d[..4]) * 0x1_0000_0000 + Number(d[4..])
  {
    Joined(d[..4], d[4..]);
    assert d == d[..4] + d[4..];
    Widths();
  }

  lemma {:induction false} Joined(a: Data, b: Data)
    ensures Number(a + b) == Number(a) * Power(|b|) + Number(b)
    decreases |b|
  {
    if b == [] {
      assert a + b == a;
    } else {
      var n := |b| - 1;
      assert (a + b)[..|a + b| - 1] == a + b[..n];
      Joined(a, b[..n]);
      assert 256 * (Number(a) * Power(n)) == Number(a) * Power(n + 1);
    }
  }
}
