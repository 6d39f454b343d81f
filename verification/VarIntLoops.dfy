/** The loops that read and write variable-length integers (wire/java/varint.go), over a source that runs out. */
module VarIntLoops {
  import opened Wrappers
  import opened Bytes
  import opened VarInt

  /** How io.ReadFull fails: with nothing read, or with some of it. */
  datatype Short = AtEnd | Partial

  /** A reader of bytes, as io.ReadFull uses one. */
  class Source {
    const data: Data
    var pos: nat

    ghost predicate Valid()
      reads this
    {
      pos <= |data|
    }

    ghost function Rest(): Data
      reads this
      requires Valid()
    {
      data[pos..]
    }

    constructor (data: Data)
      ensures Valid() && Rest() == data && this.data == data
    {
      this.data, pos := data, 0;
    }

    /** All n bytes, or none when fewer are left; a short read leaves nothing. */
    method ReadFull(n: nat) returns (d: Result<Data, Short>)
      requires Valid()
      modifies this
      ensures Valid() && (d.Ok? <==> n <= |old(Rest())|)
      ensures d.Ok? ==> d.value == old(Rest())[..n] && Rest() == old(Rest())[n..]
      ensures d.Err? ==> Rest() == [] && d.error == if old(Rest()) == [] then AtEnd else Partial
    {
      if pos + n > |data| {
        d := Err(if pos == |data| then AtEnd else Partial);
        pos := |data|;
        return;
      }
      assert data[pos..][..n] == data[pos..pos + n] && data[pos..][n..] == data[pos + n..];
      d := Ok(data[pos..pos + n]);
      pos := pos + n;
    }
  }

  /** The bits so far, with seven more above them. */
  function Grown(done: nat, bits: nat, scale: nat): nat {
    done + scale * bits
  }

  /** What of them fits a word. */
  function Kept(done: nat, modulus: nat): (r: nat)
    requires modulus > 0
    ensures r < modulus
  {
    done % modulus
  }

  /** Or-ing in bits shifted to their place, and dropping what does not fit. */
  function Added(result: nat, bits: nat, scale: nat, modulus: nat): (r: nat)
    requires modulus > 0
    ensures r < modulus
  {
    (result + bits * scale) % modulus
  }

  lemma AddedIs(done: nat, bits: nat, scale: nat, modulus: nat)
    requires modulus > 0
    ensures Added(Kept(done, modulus), bits, scale, modulus) == Kept(Grown(done, bits, scale), modulus)
  {
    Dropped(done, bits * scale, modulus);
  }

  /** Partway through: `done` are the bits so far, and the rest count `scale` times. */
  predicate Partway(d: Data, bytes: nat, done: nat, scale: nat, rest: Data, left: nat) {
    ReadGroups(d, bytes) ==
      match ReadGroups(rest, left)
      case Ok(more) => Ok(Got(Grown(done, more.value, scale), more.rest))
      case Err(e) => Err(e)
  }

  lemma Turn(d: Data, bytes: nat, done: nat, scale: nat, rest: Data, left: nat)
    requires Partway(d, bytes, done, scale, rest, left) && left > 0
    ensures rest == [] ==> ReadGroups(d, bytes) == Err(EndOfData)
    ensures rest != [] && rest[0] < 128 ==> ReadGroups(d, bytes) == Ok(Got(Grown(done, rest[0], scale), rest[1..]))
    ensures rest != [] && rest[0] >= 128 && left == 1 ==> ReadGroups(d, bytes) == Err(TooLong)
    ensures rest != [] && rest[0] >= 128 && left > 1 ==>
      Partway(d, bytes, Grown(done, rest[0] - 128, scale), scale * 128, rest[1..], left - 1)
  {
    if rest != [] && rest[0] >= 128 && left > 1 && ReadGroups(rest[1..], left - 1).Ok? {
      var v := ReadGroups(rest[1..], left - 1).value.value;
      Distributes(scale, rest[0] - 128, v);
    }
  }

  lemma Distributes(scale: nat, a: int, v: nat)
    ensures scale * (a + 128 * v) == scale * a + scale * 128 * v
  {
  }

  /** Adding in a word that drops the bits above it. */
  lemma Dropped(a: nat, b: nat, m: nat)
    requires m > 0
    ensures (a % m + b) % m == (a + b) % m
  {
    var q := a / m;
    assert a + b == a % m + b + q * m;
    Wraps(a % m + b, q, m);
  }

  lemma {:induction false} Wraps(a: nat, q: nat, m: nat)
    requires m > 0
    ensures (a + q * m) % m == a % m
    decreases q
  {
    if q > 0 {
      Wraps(a, q - 1, m);
      assert a + q * m == (a + (q - 1) * m) + m;
      OneWrap(a + (q - 1) * m, m);
    } else {
      assert q * m == 0;
    }
  }

  lemma OneWrap(a: nat, m: nat)
    requires m > 0
    ensures (a + m) % m == a % m
  {
    var q, r := a / m, a % m;
    assert a == q * m + r;
    assert a + m == (q + 1) * m + r;
    Unique(a + m, q + 1, r, m);
  }

  lemma Unique(a: nat, q: nat, r: nat, m: nat)
    requires r < m && a == q * m + r
    ensures a % m == r
  {
    var p, s := a / m, a % m;
    assert a == p * m + s;
    if p < q { Scaled(p + 1, q, m); assert false; }
    if q < p { Scaled(q + 1, p, m); assert false; }
  }

  lemma Scaled(a: nat, b: nat, m: nat)
    requires a <= b
    ensures a * m <= b * m
  {
  }

  /**
   The reading loop, over a word of `modulus`. The groups' bits never overlap, so the
   source's "or" is an addition, and shifting past the word drops what does not fit.
   */
  method ReadBits(source: Source, bytes: nat, modulus: nat) returns (r: Result<nat, Error>)
    requires source.Valid() && bytes > 0 && modulus > 0
    modifies source
    ensures source.Valid()
    ensures
      match ReadGroups(old(source.Rest()), bytes)
      case Ok(got) => r == Ok(Kept(got.value, modulus)) && source.Rest() == got.rest
      case Err(e) => r == Err(e)
  {
    hide ReadGroups, Partway, Grown, Kept, Added;
    ghost var d := source.Rest();
    ghost var done: nat := 0;
    var result: nat, scale: nat, read: nat := 0, 1, 0;
    Start(d, bytes, modulus);
    while true
      invariant read < bytes && source.Valid()
      invariant Partway(d, bytes, done, scale, source.Rest(), bytes - read)
      invariant result == Kept(done, modulus)
      decreases bytes - read
    {
      Turn(d, bytes, done, scale, source.Rest(), bytes - read);
      var b := source.ReadFull(1);
      if b.Err? { return Err(EndOfData); }
      var bits := b.value[0] % 128;
      AddedIs(done, bits, scale, modulus);
      result := Added(result, bits, scale, modulus);
      if b.value[0] < 128 { return Ok(result); }
      if read == bytes - 1 { return Err(TooLong); }
      done, scale, read := Grown(done, bits, scale), scale * 128, read + 1;
    }
  }

  lemma Start(d: Data, bytes: nat, modulus: nat)
    requires modulus > 0
    ensures Partway(d, bytes, 0, 1, d, bytes) && Kept(0, modulus) == 0
  {
  }

  method ReadVarInt(source: Source) returns (r: Result<Int32, Error>)
    requires source.Valid()
    modifies source
    ensures source.Valid()
    ensures
      match ReadInt(old(source.Rest()))
      case Ok(got) => r == Ok(got.value) && source.Rest() == got.rest
      case Err(e) => r == Err(e)
  {
    hide ReadGroups;
    var bits := ReadBits(source, INT_BYTES, MOD32);
    if bits.Err? { return Err(bits.error); }
    return Ok(Signed32(bits.value));
  }

  method ReadVarLong(source: Source) returns (r: Result<Int64, Error>)
    requires source.Valid()
    modifies source
    ensures source.Valid()
    ensures
      match ReadLong(old(source.Rest()))
      case Ok(got) => r == Ok(got.value) && source.Rest() == got.rest
      case Err(e) => r == Err(e)
  {
    hide ReadGroups;
    var bits := ReadBits(source, LONG_BYTES, MOD64);
    if bits.Err? { return Err(bits.error); }
    return Ok(Signed64(bits.value));
  }

  /** The writing loop: as many bytes as it takes. */
  method PutBits(buffer: array<Byte>, value: nat) returns (n: nat)
    requires Size(value) <= buffer.Length
    modifies buffer
    ensures n == Size(value) && buffer[..n] == Groups(value) && buffer[n..] == old(buffer[n..])
  {
    hide Groups;
    ghost var tail := buffer[Size(value)..];
    var remaining, index := value, 0;
    while true
      invariant index + Size(remaining) == Size(value)
      invariant buffer[..index] + Groups(remaining) == Groups(value)
      invariant buffer[Size(value)..] == tail
      decreases remaining
    {
      var b := remaining % 128;
      ghost var was := buffer[..index];
      if remaining / 128 != 0 { b := b + 128; }
      GroupsTurn(remaining);
      buffer[index] := b;
      assert buffer[..index + 1] == was + [b];
      index := index + 1;
      if remaining / 128 == 0 {
        assert was + [b] == Groups(value);
        return index;
      }
      assert was + ([b] + Groups(remaining / 128)) == (was + [b]) + Groups(remaining / 128);
      remaining := remaining / 128;
    }
  }

  lemma GroupsTurn(n: nat)
    ensures n / 128 == 0 ==> Groups(n) == [n % 128]
    ensures n / 128 != 0 ==> Groups(n) == [n % 128 + 128] + Groups(n / 128)
  {
  }

  method PutVarInt(buffer: array<Byte>, value: Int32) returns (n: nat)
    requires |PutInt(value)| <= buffer.Length
    modifies buffer
    ensures n == |PutInt(value)| && buffer[..n] == PutInt(value) && buffer[n..] == old(buffer[n..])
  {
    n := PutBits(buffer, Unsigned32(value));
  }

  method VarIntSize(value: Int32) returns (size: nat)
    ensures size == |PutInt(value)|
  {
    var remaining := Unsigned32(value);
    size := 1;
    while remaining / 128 != 0
      invariant size - 1 + Size(remaining) == Size(Unsigned32(value))
      decreases remaining
    {
      remaining := remaining / 128;
      size := size + 1;
    }
  }
}
