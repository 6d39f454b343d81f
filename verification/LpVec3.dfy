/**
 The quantised vector (wire/java/vector.go), over real numbers: floating-point rounding
 is left out. A vector is written as fifteen bits a component, each a fraction of one
 integer scale.
 */
module LpVec3 {
  import opened Wrappers
  import opened Bytes
  import opened VarInt
  import opened VarIntLoops

  datatype Vec = Vec(x: real, y: real, z: real)

  const ABS_MIN: real := 0.00003051944088384301
  const ABS_MAX: real := 17179869183.0
  const MAX_QUANTIZED: nat := 32766
  const PACKED_BYTES := 6

  function Abs(v: real): real {
    if v < 0.0 then -v else v
  }

  function Max(a: real, b: real): real {
    if a < b then b else a
  }

  function Sanitized(v: real): real {
    if v < -ABS_MAX then -ABS_MAX else if v > ABS_MAX then ABS_MAX else v
  }

  function Clean(v: Vec): Vec {
    Vec(Sanitized(v.x), Sanitized(v.y), Sanitized(v.z))
  }

  function Largest(v: Vec): real {
    Max(Abs(v.x), Max(Abs(v.y), Abs(v.z)))
  }

  function Ceil(v: real): int {
    -(-v).Floor
  }

  /** The smallest whole number no component exceeds. */
  function Scale(v: Vec): int {
    Ceil(Largest(Clean(v)))
  }

  /** A fraction in [-1, 1] as one of 32767 steps, halves rounded up. */
  function Pack(fraction: real): int {
    ((fraction * 0.5 + 0.5) * 32766.0 + 0.5).Floor
  }

  function Unpack(step: nat): real {
    (if step > MAX_QUANTIZED then 32766.0 else step as real) * 2.0 / 32766.0 - 1.0
  }

  // ---- the layout ---------------------------------------------------------------------------------

  datatype Quantized = Quantized(scale: nat, x: nat, y: nat, z: nat)

  predicate Fits(q: Quantized) {
    q.x < 0x8000 && q.y < 0x8000 && q.z < 0x8000
  }

  function FirstBits(scale: nat): nat {
    scale % 4 + if scale > 3 then 4 else 0
  }

  /** Three flag bits, then three components of fifteen bits. */
  function Packed(q: Quantized): nat {
    FirstBits(q.scale) + 8 * (q.x + 0x8000 * (q.y + 0x8000 * q.z))
  }

  /** The two low bytes low first, then the other four high first. */
  function Layout(packed: nat): (d: Data)
    ensures |d| == PACKED_BYTES
  {
    [packed % 256, packed / 256 % 256] + BigEndian(4, packed / 0x1_0000)
  }

  /** int32(n): the low thirty-two bits, as a signed number. */
  function Narrowed(n: nat): Int32 {
    Signed32(n % MOD32)
  }

  function Encoded(q: Quantized): Data {
    Layout(Packed(q)) + if q.scale > 3 then PutInt(Narrowed(q.scale / 4)) else []
  }

  function QuantizedOf(v: Vec): Quantized
    requires Largest(Clean(v)) >= ABS_MIN
  {
    ScaleCovers(v);
    var c := Clean(v);
    var s := Scale(v) as real;
    PackInRange(c.x / s);
    PackInRange(c.y / s);
    PackInRange(c.z / s);
    Quantized(Scale(v), Pack(c.x / s), Pack(c.y / s), Pack(c.z / s))
  }

  function Written(v: Vec): Data {
    if Largest(Clean(v)) < ABS_MIN then [0] else Encoded(QuantizedOf(v))
  }

  datatype Error = UnexpectedEOF | OutOfRange | Malformed

  datatype GotParts = GotParts(parts: Option<Quantized>, rest: Data)

  function Unpacked(d: Data): nat
    requires |d| == PACKED_BYTES
  {
    Number(d[2..6]) * 0x1_0000 + (d[1] as int) * 256 + d[0]
  }

  /** No parts for the zero vector. */
  function ReadParts(d: Data): Result<GotParts, Error> {
    if d == [] then Err(UnexpectedEOF)
    else if d[0] == 0 then Ok(GotParts(None, d[1..]))
    else if |d| < PACKED_BYTES then Err(UnexpectedEOF)
    else
      var packed := Unpacked(d[..PACKED_BYTES]);
      var x, y, z := packed / 8 % 0x8000, packed / 0x4_0000 % 0x8000, packed / 0x2_0000_0000 % 0x8000;
      if d[0] / 4 % 2 == 0 then Ok(GotParts(Some(Quantized(d[0] % 4, x, y, z)), d[PACKED_BYTES..]))
      else
        match ReadInt(d[PACKED_BYTES..])
        case Err(_) => Err(Malformed)
        case Ok(high) =>
          if high.value < 0 then Err(OutOfRange)
          else Ok(GotParts(Some(Quantized((d[0] as int) % 4 + (high.value as int) * 4, x, y, z)), high.rest))
  }

  /**
   A vector is refused for want of bytes when there are none, or fewer than six and the first is
   not zero; and where the third bit of the first byte says that the scale goes on, for a number
   that cannot be read, or is negative.
   */
  lemma RefusedExactly(d: Data)
    ensures
      var r := ReadParts(d);
      var goesOn := |d| >= 6 && (d[0] as int) % 8 >= 4;
      && (r == Err(UnexpectedEOF) <==> d == [] || (d[0] != 0 && |d| < 6))
      && (r == Err(Malformed) <==> goesOn && ReadInt(d[6..]).Err?)
      && (r == Err(OutOfRange) <==> goesOn && ReadInt(d[6..]).Ok? && ReadInt(d[6..]).value.value < 0)
  {
    hide ReadInt, Unpacked;
  }

  function Component(step: nat, scale: int): real {
    Unpack(step) * scale as real
  }

  function Restored(parts: Option<Quantized>): Vec {
    if parts.None? then Vec(0.0, 0.0, 0.0)
    else
      var q := parts.value;
      Vec(Component(q.x, q.scale), Component(q.y, q.scale), Component(q.z, q.scale))
  }

  // ---- quantising ------------------------------------------------------------------------------------

  lemma CeilCovers(v: real)
    ensures Ceil(v) as real >= v && Ceil(v) as real < v + 1.0
  {
  }

  /** The scale is at least one, no component exceeds it, and it is below 2^34. */
  lemma ScaleCovers(v: Vec)
    requires Largest(Clean(v)) >= ABS_MIN
    ensures 1 <= Scale(v) < 0x4_0000_0000
    ensures var c, s := Clean(v), Scale(v) as real; Abs(c.x) <= s && Abs(c.y) <= s && Abs(c.z) <= s
    ensures var c, s := Clean(v), Scale(v) as real; -1.0 <= c.x / s <= 1.0 && -1.0 <= c.y / s <= 1.0 && -1.0 <= c.z / s <= 1.0
  {
    CeilCovers(Largest(Clean(v)));
    var c, s := Clean(v), Scale(v) as real;
    Fraction(c.x, s);
    Fraction(c.y, s);
    Fraction(c.z, s);
  }

  lemma Fraction(a: real, s: real)
    requires s >= 1.0 && -s <= a <= s
    ensures -1.0 <= a / s <= 1.0 && a / s * s == a
  {
    var f := a / s;
    assert f * s == a;
    if f > 1.0 { Positive(f - 1.0, s); assert false; }
    if f < -1.0 { Positive(-1.0 - f, s); assert false; }
  }

  lemma Positive(a: real, b: real)
    requires a > 0.0 && b > 0.0
    ensures a * b > 0.0
  {
  }

  lemma PackInRange(f: real)
    requires -1.0 <= f <= 1.0
    ensures 0 <= Pack(f) <= MAX_QUANTIZED
  {
  }

  /** Every fifteen-bit step is a fraction; the one above the highest written is read as it. */
  lemma UnpackWithin(step: nat)
    requires step < 0x8000
    ensures -1.0 <= Unpack(step) <= 1.0
    ensures Unpack(step) == if step == 32767 then 1.0 else step as real / 16383.0 - 1.0
  {
  }

  /** A step is no further from the fraction than half a step either way. */
  lemma UnpackNear(f: real)
    requires -1.0 <= f <= 1.0
    ensures 0 <= Pack(f) <= MAX_QUANTIZED
    ensures Abs(Unpack(Pack(f)) - f) <= 1.0 / 32766.0
  {
    PackInRange(f);
    var exact := (f * 0.5 + 0.5) * 32766.0;
    var step := Pack(f) as real;
    assert exact - 0.5 <= step <= exact + 0.5;
  }

  /** Within one step, at this scale. */
  predicate Near(restored: real, a: real, s: real) {
    Abs(restored - a) <= s / 32766.0
  }

  lemma ComponentNear(a: real, scale: int)
    requires scale >= 1 && Abs(a) <= scale as real
    ensures 0 <= Pack(a / scale as real) <= MAX_QUANTIZED
    ensures Near(Component(Pack(a / scale as real), scale), a, scale as real)
  {
    hide Pack, Unpack, Near;
    var s := scale as real;
    Fraction(a, s);
    UnpackNear(a / s);
    var f := a / s;
    NearScaled(Unpack(Pack(f)), f, s, Component(Pack(f), scale), a);
  }

  lemma NearScaled(u: real, f: real, s: real, us: real, fs: real)
    requires s >= 0.0 && Abs(u - f) <= 1.0 / 32766.0 && us == u * s && fs == f * s
    ensures Near(us, fs, s)
  {
    Scaled(u - f, s, 1.0 / 32766.0);
    assert us - fs == (u - f) * s;
  }

  lemma Scaled(e: real, s: real, bound: real)
    requires s >= 0.0 && Abs(e) <= bound
    ensures Abs(e * s) <= bound * s
  {
    assert (bound - e) * s >= 0.0 && (bound + e) * s >= 0.0;
  }

  // ---- reading back --------------------------------------------------------------------------------------

  lemma UnpacksLayout(packed: nat)
    requires packed < 0x1_0000_0000_0000
    ensures Unpacked(Layout(packed)) == packed
  {
    NumberOf32(packed / 0x1_0000);
    assert Layout(packed)[2..6] == BigEndian(4, packed / 0x1_0000);
    hide BigEndian, Number;
    assert packed / 0x1_0000 == packed / 256 / 256;
  }

  lemma PackedParts(q: Quantized)
    requires Fits(q)
    ensures
      var packed := Packed(q);
      && packed < 0x1_0000_0000_0000 && packed % 8 == FirstBits(q.scale)
      && packed / 8 % 0x8000 == q.x && packed / 0x4_0000 % 0x8000 == q.y && packed / 0x2_0000_0000 % 0x8000 == q.z
  {
    var w := q.y + 0x8000 * q.z;
    LowParts(FirstBits(q.scale), q.x, w);
    HighParts(Packed(q), q.x, w);
    assert w / 0x8000 == q.z && w % 0x8000 == q.y;
  }

  /**
   Where the bits are: two of the scale, whether there is more of it, then fifteen a component,
   x lowest. The first two bytes come low first and the other four as one big-endian number.
   */
  lemma LayoutBits(q: Quantized)
    requires Fits(q)
    ensures
      var d := Layout(Packed(q));
      && d[0] == q.scale % 4 + (if q.scale > 3 then 4 else 0) + 8 * (q.x % 0x20)
      && d[1] == q.x / 0x20 % 0x100
      && Number(d[2..6]) == q.x / 0x2000 + 4 * q.y + 0x2_0000 * q.z
  {
    hide BigEndian, Number;
    var first := FirstBits(q.scale);
    var w := q.y + 0x8000 * q.z;
    var n := Packed(q);
    PackedParts(q);
    assert n == first + 8 * q.x + 0x4_0000 * w;
    LowTwo(first, q.x, w);
    NumberOf32(n / 0x1_0000);
    assert Layout(n)[2..6] == BigEndian(4, n / 0x1_0000);
  }

  lemma LowTwo(first: nat, x: nat, w: nat)
    requires first < 8 && x < 0x8000
    ensures
      var n := first + 8 * x + 0x4_0000 * w;
      && n % 0x100 == first + 8 * (x % 0x20) && n / 0x100 % 0x100 == x / 0x20 % 0x100
      && n / 0x1_0000 == x / 0x2000 + 4 * w
  {
    var n := first + 8 * x + 0x4_0000 * w;
    var low := first + 8 * (x % 0x20);
    assert n == low + 0x100 * (x / 0x20 + 0x400 * w);
    assert n / 0x100 == x / 0x20 + 0x400 * w;
    assert x / 0x20 / 0x100 == x / 0x2000;
    assert x / 0x20 == x / 0x20 % 0x100 + 0x100 * (x / 0x2000);
    assert n / 0x100 == x / 0x20 % 0x100 + 0x100 * (x / 0x2000 + 4 * w);
    assert n / 0x1_0000 == n / 0x100 / 0x100;
  }

  lemma LowParts(first: nat, x: nat, w: nat)
    requires first < 8 && x < 0x8000
    ensures var n := first + 8 * x + 0x4_0000 * w; n % 8 == first && n / 8 == x + 0x8000 * w && n / 8 % 0x8000 == x
  {
    var n := first + 8 * x + 0x4_0000 * w;
    assert n == 8 * (x + 0x8000 * w) + first;
  }

  lemma HighParts(n: nat, x: nat, w: nat)
    requires x < 0x8000 && n / 8 == x + 0x8000 * w
    ensures n / 0x4_0000 == w && n / 0x2_0000_0000 == w / 0x8000
  {
  }

  lemma FirstByte(q: Quantized)
    requires Fits(q) && q.scale > 0
    ensures
      var first := Layout(Packed(q))[0];
      && first != 0 && first % 4 == q.scale % 4 && (first / 4 % 2 == 1 <==> q.scale > 3)
  {
    hide BigEndian;
    PackedParts(q);
    LowBits(Packed(q));
  }

  lemma LowBits(n: nat)
    ensures n % 256 % 8 == n % 8 && n % 256 % 4 == n % 8 % 4 && n % 256 / 4 % 2 == n % 8 / 4
  {
    assert n == n / 256 * 256 + n % 256;
    assert n / 256 * 256 == 8 * (n / 256 * 32);
  }

  /** A scale the continuation can hold is recovered exactly, with every step; any other is refused. */
  lemma ReadsEncoded(q: Quantized, rest: Data)
    requires Fits(q) && 0 < q.scale < 0x4_0000_0000
    ensures ReadParts(Encoded(q) + rest) == if q.scale < 0x2_0000_0000 then Ok(GotParts(Some(q), rest)) else Err(OutOfRange)
  {
    hide ReadInt, PutInt, Layout, Packed, Unpacked;
    var head := Layout(Packed(q));
    var d := Encoded(q) + rest;
    FirstByte(q);
    PackedParts(q);
    UnpacksLayout(Packed(q));
    assert d[..PACKED_BYTES] == head && d[0] == head[0];
    if q.scale > 3 {
      var high := Narrowed(q.scale / 4);
      assert d[PACKED_BYTES..] == PutInt(high) + rest;
      IntRoundTrip(high, rest);
      assert q.scale / 4 < MOD32;
    } else {
      assert d[PACKED_BYTES..] == rest;
    }
  }

  // ---- a vector written and read --------------------------------------------------------------------------

  /** Only the zero vector's encoding begins with its byte. */
  lemma NonzeroFirstByte(v: Vec)
    ensures Written(v)[..1] == [0] <==> Largest(v) < 0.00003051944088384301
    ensures Written(v)[..1] == [0] ==> Written(v) == [0]
  {
    SmallUnclamped(v);
    if Largest(Clean(v)) >= ABS_MIN {
      ScaleCovers(v);
      FirstByte(QuantizedOf(v));
      assert Written(v)[0] == Layout(Packed(QuantizedOf(v)))[0];
    }
  }

  /** Reading a written vector succeeds exactly when its scale is below 2^33, and then loses at most a step of it. */
  lemma VectorRoundTrip(v: Vec, rest: Data)
    ensures ReadParts(Written(v) + rest).Ok? <==> Largest(Clean(v)) < ABS_MIN || Scale(v) < 0x2_0000_0000
    ensures ReadParts(Written(v) + rest).Ok? ==>
      var got := ReadParts(Written(v) + rest).value;
      var w, s := Restored(got.parts), Scale(v) as real;
      && got.rest == rest
      && (got.parts.Some? <==> Largest(v) >= ABS_MIN)
      && (got.parts.Some? ==>
            && got.parts.value.scale == Scale(v)
            && Near(w.x, v.x, s) && Near(w.y, v.y, s) && Near(w.z, v.z, s))
      && (got.parts.None? ==> Abs(w.x - v.x) < ABS_MIN && Abs(w.y - v.y) < ABS_MIN && Abs(w.z - v.z) < ABS_MIN)
  {
    Unclamped(v);
    if Largest(Clean(v)) < ABS_MIN {
      ZeroBack(v, rest);
    } else {
      hide ReadParts, Encoded, Pack, Unpack, Clean, Largest, Scale;
      ScaleCovers(v);
      StepsNear(v);
      ReadsEncoded(QuantizedOf(v), rest);
      hide QuantizedOf, Restored, Near;
    }
  }

  lemma SmallUnclamped(v: Vec)
    ensures Largest(Clean(v)) < ABS_MIN <==> Largest(v) < ABS_MIN
  {
  }

  /**
   In numbers: a written vector is read back exactly when no component exceeds 2^33 - 1, and
   then no component is further off than the largest of them, or one, divided by 32766.
   */
  lemma RoundTripBounds(v: Vec, rest: Data)
    ensures ReadParts(Written(v) + rest).Ok? <==> Largest(v) <= 8589934591.0
    ensures ReadParts(Written(v) + rest).Ok? ==>
      var w, most := Restored(ReadParts(Written(v) + rest).value.parts), (Largest(v) + 1.0) * 0.0000305195;
      Abs(w.x - v.x) <= most && Abs(w.y - v.y) <= most && Abs(w.z - v.z) <= most
  {
    VectorRoundTrip(v, rest);
    Unclamped(v);
    ScaleBelow(v);
    CeilCovers(Largest(Clean(v)));
    hide ReadParts, Restored, Written, Scale, Clean;
    assert Largest(v) >= 0.0;
  }

  /** Clamping changes nothing about which scales are too large. */
  lemma ScaleBelow(v: Vec)
    ensures Scale(v) < 0x2_0000_0000 <==> Largest(v) <= 8589934591.0
    ensures Largest(Clean(v)) < ABS_MIN ==> Largest(v) <= 8589934591.0
    ensures Scale(v) == Ceil(Largest(Clean(v)))
  {
    CeilCovers(Largest(Clean(v)));
    assert Largest(Clean(v)) == if Largest(v) > ABS_MAX then ABS_MAX else Largest(v);
    hide Clean, Largest;
  }

  /** What can be read back was not clamped. */
  lemma Unclamped(v: Vec)
    ensures Largest(Clean(v)) < ABS_MIN || Scale(v) < 0x2_0000_0000 ==> Clean(v) == v
  {
    CeilCovers(Largest(Clean(v)));
  }

  lemma ZeroBack(v: Vec, rest: Data)
    requires Largest(Clean(v)) < ABS_MIN
    ensures ReadParts(Written(v) + rest) == Ok(GotParts(None, rest))
    ensures var c := Clean(v); Abs(c.x) < ABS_MIN && Abs(c.y) < ABS_MIN && Abs(c.z) < ABS_MIN
  {
    assert (Written(v) + rest)[1..] == rest;
  }

  /** Each restored component is within one step of what was written. */
  lemma StepsNear(v: Vec)
    requires Largest(Clean(v)) >= ABS_MIN
    ensures
      var w, c, s := Restored(Some(QuantizedOf(v))), Clean(v), Scale(v) as real;
      Near(w.x, c.x, s) && Near(w.y, c.y, s) && Near(w.z, c.z, s)
    ensures Fits(QuantizedOf(v)) && QuantizedOf(v).scale == Scale(v)
  {
    hide Pack, Clean, Largest, Scale, Near, Component, Abs;
    ScaleCovers(v);
    var c := Clean(v);
    ComponentNear(c.x, Scale(v));
    ComponentNear(c.y, Scale(v));
    ComponentNear(c.z, Scale(v));
  }

  // ---- the buffer's methods --------------------------------------------------------------------------------

  method WriteLPVec3(value: Vec) returns (d: Data)
    ensures d == Written(value)
  {
    var x, y, z := Sanitized(value.x), Sanitized(value.y), Sanitized(value.z);
    var largest := Max(Abs(x), Max(Abs(y), Abs(z)));
    if largest < ABS_MIN { return [0]; }
    ScaleCovers(value);
    var scaleInt := Ceil(largest);
    var scale := scaleInt as real;
    PackInRange(x / scale);
    PackInRange(y / scale);
    PackInRange(z / scale);
    hide Pack, Layout, PutInt;
    var continuation := scaleInt > 3;
    var first := scaleInt % 4;
    if continuation { first := first + 4; }
    var packed := first + Pack(x / scale) * 8 + Pack(y / scale) * 0x4_0000 + Pack(z / scale) * 0x2_0000_0000;
    assert packed == Packed(QuantizedOf(value));
    d := Layout(packed);
    if continuation {
      var buffer := new Byte[INT_BYTES];
      IntRoundTrip(Narrowed(scaleInt / 4), []);
      var n := PutVarInt(buffer, Narrowed(scaleInt / 4));
      d := d + buffer[..n];
    } else {
      assert d + [] == d;
    }
  }

  method ReadLPVec3(source: Source) returns (v: Result<Vec, Error>)
    requires source.Valid()
    modifies source
    ensures source.Valid()
    ensures
      match ReadParts(old(source.Rest()))
      case Ok(got) => v == Ok(Restored(got.parts)) && source.Rest() == got.rest
      case Err(e) => v == Err(e)
  {
    hide ReadInt, Component, Unpacked;
    ghost var d := source.Rest();
    if source.pos == |source.data| { return Err(UnexpectedEOF); }
    if source.data[source.pos] == 0 {
      source.pos := source.pos + 1;
      assert source.Rest() == d[1..];
      return Ok(Vec(0.0, 0.0, 0.0));
    }
    var raw := source.ReadFull(PACKED_BYTES);
    if raw.Err? { return Err(UnexpectedEOF); }
    assert raw.value[0] == d[0];
    var packed := Unpacked(raw.value);
    var scale: int := raw.value[0] % 4;
    if raw.value[0] / 4 % 2 == 1 {
      var high := ReadVarInt(source);
      if high.Err? { return Err(Malformed); }
      if high.value < 0 { return Err(OutOfRange); }
      scale := scale + (high.value as int) * 4;
    }
    var x, y, z := packed / 8 % 0x8000, packed / 0x4_0000 % 0x8000, packed / 0x2_0000_0000 % 0x8000;
    assert ReadParts(d) == Ok(GotParts(Some(Quantized(scale, x, y, z)), source.Rest()));
    hide ReadParts;
    return Ok(Vec(Component(x, scale), Component(y, scale), Component(z, scale)));
  }
}
