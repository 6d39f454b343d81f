/**
 Java's modified UTF-8 (wire/java/nbt_network.go, wire/java/nbt.go), section 4.4.7 of
 The Java Virtual Machine Specification: what the encoder makes of Unicode scalar
 values, the decoder reads back as their UTF-16 code units.
 */
module ModifiedUtf8 {
  import opened Wrappers
  import opened Bytes

  /** A Unicode scalar value: what ranging over a Go string yields. */
  type Scalar = p: int | 0 <= p < 0xD800 || 0xE000 <= p < 0x11_0000

  type Unit = u: int | 0 <= u < 0x1_0000

  // ---- UTF-16 ---------------------------------------------------------------------------------

  function High(offset: nat): Unit
    requires offset < 0x10_0000
  {
    0xD800 + offset / 0x400
  }

  function Low(offset: nat): Unit {
    0xDC00 + offset % 0x400
  }

  function UnitsOf(p: Scalar): seq<Unit> {
    if p < 0x1_0000 then [p] else [High(p - 0x1_0000), Low(p - 0x1_0000)]
  }

  function Utf16(points: seq<Scalar>): seq<Unit>
    decreases |points|
  {
    if points == [] then [] else UnitsOf(points[0]) + Utf16(points[1..])
  }

  // ---- encoding ----------------------------------------------------------------------------------

  function Triple(unit: Unit): Data {
    [0xE0 + unit / 0x1000, 0x80 + unit / 0x40 % 0x40, 0x80 + unit % 0x40]
  }

  function Double(unit: int): Data
    requires 0 <= unit < 0x800
  {
    [0xC0 + unit / 0x40, 0x80 + unit % 0x40]
  }

  function EncodedPoint(p: Scalar): Data {
    if 0 < p <= 0x7F then [p]
    else if p <= 0x7FF then Double(p)
    else if p <= 0xFFFF then Triple(p)
    else Triple(High(p - 0x1_0000)) + Triple(Low(p - 0x1_0000))
  }

  function Encoded(points: seq<Scalar>): Data
    decreases |points|
  {
    if points == [] then [] else EncodedPoint(points[0]) + Encoded(points[1..])
  }

  // ---- decoding -----------------------------------------------------------------------------------

  /** The code unit in the payload bits of two or three bytes. */
  function Joined2(first: int, second: int): Unit {
    first % 0x20 * 0x40 + second % 0x40
  }

  function Joined3(first: int, second: int, third: int): Unit {
    first % 0x10 * 0x1000 + second % 0x40 * 0x40 + third % 0x40
  }

  predicate Continues(b: Byte) {
    0x80 <= b < 0xC0
  }

  /** The first code unit and how many bytes it takes; overlong forms are accepted, as the source accepts them. */
  function FirstUnit(d: Data): Option<(Unit, nat)>
    requires d != []
    ensures FirstUnit(d).Some? ==> 1 <= FirstUnit(d).value.1 <= |d|
  {
    var first := d[0];
    if first < 0x80 then Some((first, 1))
    else if 0xC0 <= first < 0xE0 then
      if |d| < 2 || !Continues(d[1]) then None else Some((Joined2(first, d[1]), 2))
    else if 0xE0 <= first < 0xF0 then
      if |d| < 3 || !Continues(d[1]) || !Continues(d[2]) then None
      else Some((Joined3(first, d[1], d[2]), 3))
    else None
  }

  function Decoded(d: Data): Option<seq<Unit>>
    decreases |d|
  {
    if d == [] then Some([])
    else
      var first := FirstUnit(d);
      if first.None? then None
      else
        var more := Decoded(d[first.value.1..]);
        if more.None? then None else Some([first.value.0] + more.value)
  }

  // ---- round trip -------------------------------------------------------------------------------------

  lemma TripleBits(unit: Unit)
    ensures
      var t := Triple(unit);
      && 0xE0 <= t[0] < 0xF0 && Continues(t[1]) && Continues(t[2]) && Joined3(t[0], t[1], t[2]) == unit
  {
    assert unit / 0x40 / 0x40 == unit / 0x1000;
    assert unit == unit / 0x40 * 0x40 + unit % 0x40;
    assert unit / 0x40 == unit / 0x1000 * 0x40 + unit / 0x40 % 0x40;
  }

  lemma DoubleBits(unit: int)
    requires 0 <= unit < 0x800
    ensures
      var t := Double(unit);
      0xC0 <= t[0] < 0xE0 && Continues(t[1]) && Joined2(t[0], t[1]) == unit
  {
    assert unit == unit / 0x40 * 0x40 + unit % 0x40;
  }

  lemma TripleReads(unit: Unit, rest: Data)
    ensures FirstUnit(Triple(unit) + rest) == Some((unit, 3)) && (Triple(unit) + rest)[3..] == rest
  {
    TripleBits(unit);
    hide Joined3;
  }

  lemma DoubleReads(unit: Unit, rest: Data)
    requires unit < 0x800
    ensures FirstUnit(Double(unit) + rest) == Some((unit, 2)) && (Double(unit) + rest)[2..] == rest
  {
    DoubleBits(unit);
    hide Joined2;
  }

  /** Decoding a text whose first code unit is known. */
  lemma DecodedStep(d: Data, unit: Unit, width: nat, rest: Data)
    requires d != [] && FirstUnit(d) == Some((unit, width)) && d[width..] == rest
    ensures Decoded(d) == if Decoded(rest).None? then None else Some([unit] + Decoded(rest).value)
  {
    hide FirstUnit;
  }

  lemma PointReads(p: Scalar, rest: Data)
    ensures Decoded(EncodedPoint(p) + rest) ==
      if Decoded(rest).None? then None else Some(UnitsOf(p) + Decoded(rest).value)
  {
    hide Triple, Double, FirstUnit, Decoded, High, Low;
    var d := EncodedPoint(p) + rest;
    if p > 0xFFFF {
      var high, low := High(p - 0x1_0000), Low(p - 0x1_0000);
      var more := Triple(low) + rest;
      assert d == Triple(high) + more;
      TripleReads(high, more);
      TripleReads(low, rest);
      DecodedStep(more, low, 3, rest);
      DecodedStep(d, high, 3, more);
      if Decoded(rest).Some? { assert [high] + ([low] + Decoded(rest).value) == [high, low] + Decoded(rest).value; }
    } else if p > 0x7FF {
      TripleReads(p, rest);
      DecodedStep(d, p, 3, rest);
    } else if 0 < p <= 0x7F {
      SingleReads(p, rest);
      DecodedStep(d, p, 1, rest);
    } else {
      DoubleReads(p, rest);
      DecodedStep(d, p, 2, rest);
    }
  }

  lemma SingleReads(p: Byte, rest: Data)
    requires p < 0x80
    ensures FirstUnit([p] + rest) == Some((p, 1)) && ([p] + rest)[1..] == rest
  {
  }

  lemma {:induction false} DecodesEncoded(points: seq<Scalar>)
    ensures Decoded(Encoded(points)) == Some(Utf16(points))
    decreases |points|
  {
    if points != [] {
      DecodesEncoded(points[1..]);
      PointReads(points[0], Encoded(points[1..]));
    }
  }

  /** Code units say which scalar values they came from. */
  lemma {:induction false} Utf16Injective(a: seq<Scalar>, b: seq<Scalar>)
    requires Utf16(a) == Utf16(b)
    ensures a == b
    decreases |a|
  {
    if a != [] && b != [] {
      assert Utf16(a)[0] == UnitsOf(a[0])[0] && Utf16(b)[0] == UnitsOf(b[0])[0];
      var n := |UnitsOf(a[0])|;
      assert n == |UnitsOf(b[0])|;
      if n == 2 { assert Utf16(a)[1] == UnitsOf(a[0])[1] && Utf16(b)[1] == UnitsOf(b[0])[1]; }
      assert a[0] == b[0];
      assert Utf16(a)[n..] == Utf16(a[1..]) && Utf16(b)[n..] == Utf16(b[1..]);
      Utf16Injective(a[1..], b[1..]);
      assert a == [a[0]] + a[1..] && b == [b[0]] + b[1..];
    }
  }

  lemma EncodingInjective(a: seq<Scalar>, b: seq<Scalar>)
    requires Encoded(a) == Encoded(b)
    ensures a == b
  {
    DecodesEncoded(a);
    DecodesEncoded(b);
    Utf16Injective(a, b);
  }

  /** No byte is zero, so a text can be terminated by one. */
  lemma {:induction false} NoZeroByte(points: seq<Scalar>)
    ensures forall i :: 0 <= i < |Encoded(points)| ==> Encoded(points)[i] != 0
    decreases |points|
  {
    if points != [] { NoZeroByte(points[1..]); }
  }

  // ---- in numbers -----------------------------------------------------------------------------------------

  /** Above the first plane a scalar value is two surrogates, which hold ten bits each of what is above it. */
  lemma Surrogates(p: Scalar)
    ensures p < 0x1_0000 ==> UnitsOf(p) == [p]
    ensures p >= 0x1_0000 ==>
      && |UnitsOf(p)| == 2 && 0xD800 <= UnitsOf(p)[0] < 0xDC00 <= UnitsOf(p)[1] < 0xE000
      && p as int == 0x1_0000 + (UnitsOf(p)[0] as int - 0xD800) * 0x400 + (UnitsOf(p)[1] as int - 0xDC00)
  {
  }

  /** How many bytes a scalar value takes: zero takes two, and a surrogate pair three each. */
  lemma EncodedWidth(p: Scalar)
    ensures |EncodedPoint(p)| == if p == 0 then 2 else if p < 0x80 then 1 else if p < 0x800 then 2 else if p < 0x1_0000 then 3 else 6
  {
  }

  predicate Trails(b: Byte) {
    0x80 <= b && b < 0xC0
  }

  /**
   The first code unit of any bytes: seven bits after a zero bit, eleven in two bytes or sixteen
   in three, each later byte with six of them. Anything else is ill-formed and refused.
   */
  lemma UnitBits(d: Data)
    requires d != []
    ensures Decoded(d).Some? ==> FirstUnit(d).Some?
    ensures d[0] < 0x80 ==> FirstUnit(d) == Some((d[0], 1))
    ensures 0x80 <= d[0] < 0xC0 || d[0] >= 0xF0 ==> FirstUnit(d).None?
    ensures 0xC0 <= d[0] < 0xE0 ==>
      if |d| >= 2 && Trails(d[1]) then FirstUnit(d) == Some(((d[0] as int - 0xC0) * 0x40 + (d[1] as int - 0x80), 2)) else FirstUnit(d).None?
    ensures 0xE0 <= d[0] < 0xF0 ==>
      if |d| >= 3 && Trails(d[1]) && Trails(d[2])
      then FirstUnit(d) == Some(((d[0] as int - 0xE0) * 0x1000 + (d[1] as int - 0x80) * 0x40 + (d[2] as int - 0x80), 3))
      else FirstUnit(d).None?
  {
  }

  // ---- the loops ------------------------------------------------------------------------------------------

  /** One turn of the encoder's loop. */
  method AppendPoint(encoded: Data, p: Scalar) returns (more: Data)
    ensures more == encoded + EncodedPoint(p)
  {
    hide Triple, Double, High, Low;
    if 0 < p <= 0x7F {
      more := encoded + [p];
    } else if p <= 0x7FF {
      more := AppendDouble(encoded, p);
    } else if p <= 0xFFFF {
      more := AppendTriple(encoded, p);
    } else {
      var offset := (p as int) - 0x1_0000;
      more := AppendTriple(encoded, High(offset));
      more := AppendTriple(more, Low(offset));
      Grouped(encoded, Triple(High(offset)), Triple(Low(offset)));
    }
  }

  method EncodeModifiedUTF8(value: seq<Scalar>) returns (encoded: Data)
    ensures encoded == Encoded(value)
  {
    encoded := [];
    var i := 0;
    assert value[0..] == value && [] + Encoded(value) == Encoded(value);
    while i < |value|
      invariant i <= |value|
      invariant encoded + Encoded(value[i..]) == Encoded(value)
    {
      hide Encoded, EncodedPoint;
      EncodedStep(value[i..]);
      assert value[i..][1..] == value[i + 1..];
      Grouped(encoded, EncodedPoint(value[i]), Encoded(value[i + 1..]));
      encoded := AppendPoint(encoded, value[i]);
      i := i + 1;
    }
    assert value[i..] == [];
  }

  lemma Grouped(a: Data, b: Data, c: Data)
    ensures (a + b) + c == a + (b + c)
  {
  }

  lemma EncodedStep(points: seq<Scalar>)
    requires points != []
    ensures Encoded(points) == EncodedPoint(points[0]) + Encoded(points[1..])
  {
  }

  method AppendDouble(encoded: Data, unit: int) returns (more: Data)
    requires 0 <= unit < 0x800
    ensures more == encoded + Double(unit)
  {
    more := encoded + [0xC0 + unit / 0x40, 0x80 + unit % 0x40];
  }

  method AppendTriple(encoded: Data, unit: Unit) returns (more: Data)
    ensures more == encoded + Triple(unit)
  {
    more := encoded + [0xE0 + unit / 0x1000, 0x80 + unit / 0x40 % 0x40, 0x80 + unit % 0x40];
  }

  /** Two bytes for every code unit: a key to compare names by. */
  function Pairs(units: seq<Unit>): Data
    decreases |units|
  {
    if units == [] then [] else [units[0] / 0x100, units[0] % 0x100] + Pairs(units[1..])
  }

  lemma {:induction false} PairsInjective(a: seq<Unit>, b: seq<Unit>)
    requires Pairs(a) == Pairs(b)
    ensures a == b
    decreases |a|
  {
    if a != [] && b != [] {
      assert Pairs(a)[0] == a[0] / 0x100 && Pairs(a)[1] == a[0] % 0x100;
      assert Pairs(b)[0] == b[0] / 0x100 && Pairs(b)[1] == b[0] % 0x100;
      assert Pairs(a)[2..] == Pairs(a[1..]) && Pairs(b)[2..] == Pairs(b[1..]);
      PairsInjective(a[1..], b[1..]);
      assert a == [a[0]] + a[1..] && b == [b[0]] + b[1..];
    }
  }

  /** The key of a name: its code units as bytes, if it is well formed. */
  function Key(d: Data): Option<Data> {
    var units := Decoded(d);
    if units.None? then None else Some(Pairs(units.value))
  }

  /** One turn of the decoder's loop: the next code unit, and how far it goes. */
  method NextUnit(data: Data, offset: nat) returns (unit: Option<(Unit, nat)>)
    requires offset < |data|
    ensures unit == FirstUnit(data[offset..])
  {
    hide Joined2, Joined3;
    var first := data[offset];
    if first < 0x80 { return Some((first, 1)); }
    if 0xC0 <= first < 0xE0 {
      if offset + 1 >= |data| { return None; }
      var second := data[offset + 1];
      if !Continues(second) { return None; }
      return Some((Joined2(first, second), 2));
    }
    if 0xE0 <= first < 0xF0 {
      if offset + 2 >= |data| { return None; }
      var second, third := data[offset + 1], data[offset + 2];
      if !Continues(second) || !Continues(third) { return None; }
      return Some((Joined3(first, second, third), 3));
    }
    return None;
  }

  method DecodeModifiedUTF8(data: Data) returns (key: Option<Data>)
    ensures key == Key(data)
  {
    var decoded: Data := [];
    var offset := 0;
    assert data[0..] == data;
    if Key(data).Some? { assert [] + Key(data).value == Key(data).value; }
    while offset < |data|
      invariant offset <= |data|
      invariant Key(data) ==
        var more := Key(data[offset..]); if more.None? then None else Some(decoded + more.value)
    {
      hide Decoded, Pairs, FirstUnit;
      KeyStep(data[offset..]);
      hide Key;
      var unit := NextUnit(data, offset);
      if unit.None? { return None; }
      var (value, width) := unit.value;
      FirstFits(data[offset..]);
      assert data[offset..][width..] == data[offset + width..];
      ghost var was, more := decoded, Key(data[offset + width..]);
      decoded := decoded + [value / 0x100, value % 0x100];
      offset := offset + width;
      if more.Some? { Grouped(was, [value / 0x100, value % 0x100], more.value); }
    }
    assert data[offset..] == [];
    assert decoded + [] == decoded;
    return Some(decoded);
  }

  lemma FirstFits(d: Data)
    requires d != []
    ensures FirstUnit(d).Some? ==> 1 <= FirstUnit(d).value.1 <= |d|
  {
    hide Joined2, Joined3;
  }

  lemma KeyStep(d: Data)
    requires d != []
    ensures FirstUnit(d).None? ==> Key(d).None?
    ensures FirstUnit(d).Some? ==>
      var (value, width) := FirstUnit(d).value;
      Key(d) == var more := Key(d[width..]);
                if more.None? then None else Some([value / 0x100, value % 0x100] + more.value)
  {
    if FirstUnit(d).Some? {
      var (value, width) := FirstUnit(d).value;
      var more := Decoded(d[width..]);
      if more.Some? { assert ([value] + more.value)[1..] == more.value; }
    }
  }
}
