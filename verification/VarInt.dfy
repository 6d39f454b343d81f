/**
 Variable-length integers (wire/java/varint.go): seven bits a byte, low bits first.
 `Groups` is the one encoding written; reading accepts more than it, and drops the bits
 of the last byte that do not fit.
 */
module VarInt {
  import opened Wrappers
  import opened Bytes

  const INT_BYTES := 5
  const LONG_BYTES := 10

  /** The shortest encoding. */
  function Groups(n: nat): (d: Data)
    ensures d != []
  {
    if n < 128 then [n] else [n % 128 + 128] + Groups(n / 128)
  }

  function Size(n: nat): nat {
    |Groups(n)|
  }

  function Limit(bytes: nat): nat {
    if bytes == 0 then 1 else 128 * Limit(bytes - 1)
  }

  datatype Got = Got(value: nat, rest: Data)

  datatype Error = EndOfData | TooLong

  /** All the bits of at most `bytes` groups, before any are dropped. */
  function ReadGroups(d: Data, bytes: nat): Result<Got, Error> {
    if d == [] then Err(EndOfData)
    else if d[0] < 128 then Ok(Got(d[0], d[1..]))
    else if bytes <= 1 then Err(TooLong)
    else
      var more := ReadGroups(d[1..], bytes - 1);
      if more.Err? then Err(more.error) else Ok(Got(d[0] - 128 + 128 * more.value.value, more.value.rest))
  }

  // ---- round trip --------------------------------------------------------------------------

  lemma {:induction false} SizeBelow(n: nat, bytes: nat)
    requires bytes > 0
    ensures n < Limit(bytes) <==> Size(n) <= bytes
    decreases bytes
  {
    if bytes == 1 {
      assert Limit(1) == 128 * Limit(0);
    } else if n >= 128 {
      SizeBelow(n / 128, bytes - 1);
      assert n < 128 * Limit(bytes - 1) <==> n / 128 < Limit(bytes - 1);
    } else {
      LimitPositive(bytes - 1);
    }
  }

  lemma {:induction false} LimitPositive(bytes: nat)
    ensures Limit(bytes) >= 1
  {
    if bytes > 0 { LimitPositive(bytes - 1); }
  }

  lemma {:induction false} ReadsGroups(n: nat, rest: Data, bytes: nat)
    requires Size(n) <= bytes
    ensures ReadGroups(Groups(n) + rest, bytes) == Ok(Got(n, rest))
    decreases bytes
  {
    var d := Groups(n) + rest;
    if n < 128 {
      assert d[1..] == rest;
    } else {
      assert d[1..] == Groups(n / 128) + rest;
      ReadsGroups(n / 128, rest, bytes - 1);
    }
  }

  /** What was read, byte for byte. */
  lemma {:induction false} ReadsWithin(d: Data, bytes: nat)
    requires ReadGroups(d, bytes).Ok? && bytes > 0
    ensures
      var got := ReadGroups(d, bytes).value;
      && |got.rest| < |d| && |d| - |got.rest| <= bytes && d == d[..|d| - |got.rest|] + got.rest
      && got.value < Limit(|d| - |got.rest|)
    decreases bytes
  {
    var got := ReadGroups(d, bytes).value;
    if d[0] >= 128 {
      ReadsWithin(d[1..], bytes - 1);
      assert d == [d[0]] + d[1..];
    } else {
      assert Limit(1) == 128 * Limit(0);
      assert d == [d[0]] + d[1..];
    }
  }

  /** The bytes read are the shortest encoding of their bits exactly when there are as few of them. */
  lemma {:induction false} ShortestIsGroups(d: Data, bytes: nat)
    requires ReadGroups(d, bytes).Ok? && bytes > 0
    ensures
      var got := ReadGroups(d, bytes).value;
      |got.rest| <= |d| && (d[..|d| - |got.rest|] == Groups(got.value) <==> |d| - |got.rest| == Size(got.value))
    decreases bytes
  {
    var got := ReadGroups(d, bytes).value;
    ReadsWithin(d, bytes);
    var used := d[..|d| - |got.rest|];
    if d[0] >= 128 {
      var more := ReadGroups(d[1..], bytes - 1).value;
      ReadsWithin(d[1..], bytes - 1);
      ShortestIsGroups(d[1..], bytes - 1);
      assert used == [d[0]] + d[1..][..|d[1..]| - |more.rest|];
      if |used| == Size(got.value) {
        assert got.value >= 128;
        assert got.value / 128 == more.value && got.value % 128 == d[0] - 128;
      }
    } else {
      assert used == [d[0]];
    }
  }

  // ---- thirty-two and sixty-four bits --------------------------------------------------------

  lemma Limits()
    ensures Limit(4) == 0x1000_0000 && Limit(5) == 0x8_0000_0000 && Limit(10) == 128 * Limit(9) && Limit(9) == MOD64 / 2
  {
    assert Limit(1) == 128 * Limit(0);
    assert Limit(2) == 128 * Limit(1);
    assert Limit(3) == 128 * Limit(2);
    assert Limit(4) == 128 * Limit(3);
    assert Limit(5) == 128 * Limit(4);
    assert Limit(6) == 128 * Limit(5);
    assert Limit(7) == 128 * Limit(6);
    assert Limit(8) == 128 * Limit(7);
    assert Limit(9) == 128 * Limit(8);
  }

  datatype GotInt = GotInt(value: Int32, rest: Data)

  /** A VarInt: five bytes at most, of whose thirty-five bits the low thirty-two are kept. */
  function ReadInt(d: Data): Result<GotInt, Error> {
    var got := ReadGroups(d, INT_BYTES);
    if got.Err? then Err(got.error) else Ok(GotInt(Signed32(got.value.value % MOD32), got.value.rest))
  }

  function PutInt(v: Int32): Data {
    Groups(Unsigned32(v))
  }

  lemma IntRoundTrip(v: Int32, rest: Data)
    ensures ReadInt(PutInt(v) + rest) == Ok(GotInt(v, rest)) && 1 <= |PutInt(v)| <= INT_BYTES
  {
    Limits();
    SizeBelow(Unsigned32(v), INT_BYTES);
    ReadsGroups(Unsigned32(v), rest, INT_BYTES);
  }

  datatype GotLong = GotLong(value: Int64, rest: Data)

  function ReadLong(d: Data): Result<GotLong, Error> {
    var got := ReadGroups(d, LONG_BYTES);
    if got.Err? then Err(got.error) else Ok(GotLong(Signed64(got.value.value % MOD64), got.value.rest))
  }

  function PutLong(v: Int64): Data {
    Groups(Unsigned64(v))
  }

  lemma Unsigned64Back(v: Int64)
    ensures Unsigned64(v) % MOD64 == Unsigned64(v) && Signed64(Unsigned64(v)) == v
  {
  }

  lemma LongRoundTrip(v: Int64, rest: Data)
    ensures ReadLong(PutLong(v) + rest) == Ok(GotLong(v, rest)) && 1 <= |PutLong(v)| <= LONG_BYTES
  {
    hide Groups, Limit, ReadGroups;
    Limits();
    LimitPositive(9);
    SizeBelow(Unsigned64(v), LONG_BYTES);
    ReadsGroups(Unsigned64(v), rest, LONG_BYTES);
    Unsigned64Back(v);
  }

  // ---- in numbers ------------------------------------------------------------------------------

  /** The first k bytes say that another follows. */
  predicate Continued(d: Data, k: nat) {
    k <= |d| && forall i :: 0 <= i < k ==> d[i] >= 0x80
  }

  /** A number ends at the first byte below 128, if that is among the first `bytes`. */
  lemma {:induction false} EndsAt(d: Data, bytes: nat, k: nat)
    requires Continued(d, k) && k < bytes
    ensures k < |d| && d[k] < 0x80 ==> ReadGroups(d, bytes).Ok? && ReadGroups(d, bytes).value.rest == d[k + 1..]
    ensures k == |d| ==> ReadGroups(d, bytes) == Err(EndOfData)
    ensures k < |d| && d[k] >= 0x80 && k == bytes - 1 ==> ReadGroups(d, bytes) == Err(TooLong)
    decreases k
  {
    if k > 0 {
      assert Continued(d[1..], k - 1);
      EndsAt(d[1..], bytes - 1, k - 1);
      if k < |d| { assert d[1..][k..] == d[k + 1..]; }
    }
  }

  /** A 32-bit number is one to five bytes, the last of them alone below 128; whatever else is refused. */
  lemma IntEnds(d: Data, k: nat)
    requires Continued(d, k) && k < 5
    ensures k < |d| && d[k] < 0x80 ==> ReadInt(d).Ok? && ReadInt(d).value.rest == d[k + 1..]
    ensures k == |d| ==> ReadInt(d) == Err(EndOfData)
    ensures k == 4 && k < |d| && d[k] >= 0x80 ==> ReadInt(d) == Err(TooLong)
  {
    EndsAt(d, 5, k);
  }

  /** And a 64-bit number one to ten. */
  lemma LongEnds(d: Data, k: nat)
    requires Continued(d, k) && k < 10
    ensures k < |d| && d[k] < 0x80 ==> ReadLong(d).Ok? && ReadLong(d).value.rest == d[k + 1..]
    ensures k == |d| ==> ReadLong(d) == Err(EndOfData)
    ensures k == 9 && k < |d| && d[k] >= 0x80 ==> ReadLong(d) == Err(TooLong)
  {
    EndsAt(d, 10, k);
  }

  /** Each byte holds seven bits, the lowest first, and says whether another follows. */
  lemma {:induction false} GroupAt(n: nat, k: nat)
    requires k < |Groups(n)|
    ensures Groups(n)[k] == Shifted(n, k) % 0x80 + if k < |Groups(n)| - 1 then 0x80 else 0
    decreases k
  {
    if k > 0 { GroupAt(n / 128, k - 1); }
  }

  /** n with its 7k lowest bits gone. */
  function Shifted(n: nat, k: nat): nat {
    if k == 0 then n else Shifted(n / 0x80, k - 1)
  }

  lemma GroupsInjective(a: nat, b: nat)
    ensures Groups(a) == Groups(b) ==> a == b
  {
    ReadsGroups(a, [], Size(a) + Size(b));
    ReadsGroups(b, [], Size(a) + Size(b));
  }

  /** Two encodings read as one number, both with as many bytes as the number needs: possible exactly from 2^28 up. */
  ghost predicate Ambiguous(v: Uint32) {
    exists d: Data :: AlsoReads(d, v)
  }

  predicate AlsoReads(d: Data, v: Uint32) {
    && ReadGroups(d, INT_BYTES).Ok? && ReadGroups(d, INT_BYTES).value.rest == []
    && ReadGroups(d, INT_BYTES).value.value % MOD32 == v
    && |d| == Size(v) && d != Groups(v)
  }

  /** The size check alone makes an encoding unique only below 2^28: the fifth byte has bits that are dropped. */
  lemma AmbiguousFrom28(v: Uint32)
    ensures Ambiguous(v) <==> v >= 0x1000_0000
  {
    if v >= 0x1000_0000 {
      AlsoReadsWrapped(v);
    } else {
      forall d: Data ensures !AlsoReads(d, v) {
        ReadsOnlyGroups(d, v);
      }
    }
  }

  /** The encoding of v + 2^32, with as many bytes, is read as v. */
  lemma AlsoReadsWrapped(v: Uint32)
    requires v >= 0x1000_0000
    ensures AlsoReads(Groups(v + MOD32), v)
  {
    hide Groups, ReadGroups, Limit;
    var w := v + MOD32;
    Limits();
    SizeBelow(v, 4);
    SizeBelow(v, 5);
    SizeBelow(w, 4);
    SizeBelow(w, 5);
    ReadsGroups(w, [], INT_BYTES);
    assert Groups(w) + [] == Groups(w);
    GroupsInjective(w, v);
  }

  lemma ReadsOnlyGroups(d: Data, v: Uint32)
    requires v < 0x1000_0000
    ensures !AlsoReads(d, v)
  {
    hide Groups, ReadGroups, Limit;
    if AlsoReads(d, v) {
      Limits();
      SizeBelow(v, 4);
      ReadsWithin(d, INT_BYTES);
      ShortestIsGroups(d, INT_BYTES);
      assert d[..|d|] == d;
      ShortLimit(|d|);
    }
  }

  lemma ShortLimit(n: nat)
    requires n <= 4
    ensures Limit(n) <= 0x1000_0000
  {
    Limits();
    assert Limit(4) == 128 * Limit(3) && Limit(3) == 128 * Limit(2) && Limit(2) == 128 * Limit(1) && Limit(1) == 128 * Limit(0);
  }
}
