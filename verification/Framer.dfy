/**
 Length-prefixed frames and packet bodies (wire/java/framer.go). Framing is canonical:
 whatever bytes are accepted as a frame are the bytes that would have been written.
 */
module Framer {
  import opened Wrappers
  import opened Bytes
  import opened VarInt
  import opened VarIntLoops

  /** The hard ceiling on a frame, which keeps its length below where lengths become ambiguous. */
  const HARD_FRAME_BYTES := 0x400_0000

  datatype FrameError = CleanEnd | CutShort | OverlongLength | NegativeLength | EmptyFrame | FrameTooLarge

  datatype GotFrame = GotFrame(wire: Data, payload: Data, rest: Data)

  function Build(payload: Data, limit: nat): Result<Data, FrameError> {
    if payload == [] then Err(EmptyFrame)
    else if |payload| > limit then Err(FrameTooLarge)
    else Ok(Groups(|payload|) + payload)
  }

  /** The length and the bytes it took; more bytes than it needs are refused. */
  function ReadLength(d: Data): Result<GotInt, FrameError> {
    match ReadGroups(d, INT_BYTES)
    case Err(EndOfData) => Err(if d == [] then CleanEnd else CutShort)
    case Err(TooLong) => Err(OverlongLength)
    case Ok(got) =>
      var v := got.value % MOD32;
      if |d| != |got.rest| + Size(v) then Err(OverlongLength) else Ok(GotInt(Signed32(v), got.rest))
  }

  function Parse(d: Data, limit: nat): Result<GotFrame, FrameError> {
    var length := ReadLength(d);
    if length.Err? then Err(length.error)
    else
      var n := length.value.value;
      var rest := length.value.rest;
      if n < 0 then Err(NegativeLength)
      else if n == 0 then Err(EmptyFrame)
      else if n > limit then Err(FrameTooLarge)
      else if |rest| < n then Err(if rest == [] then CleanEnd else CutShort)
      else ReadsLengthShorter(d); Ok(GotFrame(d[..|d| - |rest| + n], rest[..n], rest[n..]))
  }

  lemma ReadsLengthShorter(d: Data)
    requires ReadLength(d).Ok?
    ensures |ReadLength(d).value.rest| < |d|
  {
    ReadsWithin(d, INT_BYTES);
  }

  // ---- canonical framing ---------------------------------------------------------------------

  lemma ParsesBuilt(payload: Data, rest: Data, limit: nat)
    requires payload != [] && |payload| <= limit <= HARD_FRAME_BYTES
    ensures Parse(Build(payload, limit).value + rest, limit) == Ok(GotFrame(Build(payload, limit).value, payload, rest))
  {
    hide Groups, ReadGroups;
    var n := |payload|;
    var d := Build(payload, limit).value + rest;
    Limits();
    SizeBelow(n, 4);
    assert d == Groups(n) + (payload + rest);
    ReadsGroups(n, payload + rest, INT_BYTES);
    assert (payload + rest)[..n] == payload && (payload + rest)[n..] == rest;
    assert d[..Size(n) + n] == Groups(n) + payload;
  }

  /** An accepted length is in the one encoding it has, below the ceiling. */
  lemma LengthCanonical(d: Data)
    requires ReadLength(d).Ok? && 0 <= ReadLength(d).value.value <= HARD_FRAME_BYTES
    ensures d == Groups(ReadLength(d).value.value) + ReadLength(d).value.rest
  {
    var got := ReadGroups(d, INT_BYTES).value;
    var n := ReadLength(d).value.value;
    ReadsWithin(d, INT_BYTES);
    ShortestIsGroups(d, INT_BYTES);
    hide Groups, ReadGroups, Limit;
    Limits();
    SizeBelow(n, 4);
    assert got.value % MOD32 == n;
    FewBytes(|d| - |got.rest|, got.value);
    assert got.value == n;
  }

  lemma ParsedParts(d: Data, limit: nat)
    requires Parse(d, limit).Ok?
    ensures
      && ReadLength(d).Ok? && 0 < ReadLength(d).value.value <= limit
      && ReadLength(d).value.value <= |ReadLength(d).value.rest| < |d|
    ensures
      var n, rest := ReadLength(d).value.value, ReadLength(d).value.rest;
      Parse(d, limit).value == GotFrame(d[..|d| - |rest| + n], rest[..n], rest[n..])
  {
    ReadsLengthShorter(d);
    hide ReadLength;
  }

  /** Accepted bytes are the canonical frame of what they hold, and then whatever follows it. */
  lemma ParsedIsBuilt(d: Data, limit: nat)
    requires limit <= HARD_FRAME_BYTES && Parse(d, limit).Ok?
    ensures
      var got := Parse(d, limit).value;
      Build(got.payload, limit) == Ok(got.wire) && d == got.wire + got.rest
  {
    hide Groups, ReadLength, Parse;
    ParsedParts(d, limit);
    LengthCanonical(d);
    var length := ReadLength(d).value;
    var n := length.value;
    assert d == Groups(n) + (length.rest[..n] + length.rest[n..]);
    assert d[..|d| - |length.rest| + n] == Groups(n) + length.rest[..n];
  }

  lemma FewBytes(size: nat, value: nat)
    requires size <= 4 && value < Limit(size)
    ensures value < 0x1000_0000
  {
    ShortLimit(size);
  }

  /** So two byte sequences that give the same payload and leave nothing are the same. */
  lemma OneEncoding(a: Data, b: Data, limit: nat)
    requires limit <= HARD_FRAME_BYTES && Parse(a, limit).Ok? && Parse(b, limit).Ok?
    requires Parse(a, limit).value.payload == Parse(b, limit).value.payload
    requires Parse(a, limit).value.rest == [] == Parse(b, limit).value.rest
    ensures a == b
  {
    ParsedIsBuilt(a, limit);
    ParsedIsBuilt(b, limit);
    hide Parse;
  }

  /** Nothing but a frame's length, for a payload that would have been accepted. */
  ghost predicate JustLength(d: Data, limit: nat) {
    exists n: nat :: 0 < n <= limit && d == Groups(n)
  }

  /**
   A clean end is meant to be an end before a frame's first byte. It is also what a frame
   cut right after its length looks like; every other cut is told apart.
   */
  lemma CleanEndExactly(d: Data, limit: nat)
    requires limit <= HARD_FRAME_BYTES
    ensures Parse(d, limit) == Err(CleanEnd) <==> d == [] || JustLength(d, limit)
  {
    hide ReadGroups, Groups, ReadLength;
    if d == [] { EmptyEnds(limit); }
    if d != [] && Parse(d, limit) == Err(CleanEnd) {
      OnlyEmptyEnds(d);
      LengthCanonical(d);
      assert Groups(ReadLength(d).value.value) + [] == Groups(ReadLength(d).value.value);
    }
    if JustLength(d, limit) {
      var n: nat :| 0 < n <= limit && d == Groups(n);
      LengthReads(n);
    }
  }

  lemma OnlyEmptyEnds(d: Data)
    ensures ReadLength(d) == Err(CleanEnd) <==> d == []
  {
    hide ReadGroups, Groups;
    if d == [] { NothingRead(d); }
  }

  lemma NothingRead(d: Data)
    requires d == []
    ensures ReadGroups(d, INT_BYTES) == Err(EndOfData)
  {
  }

  lemma LengthReads(n: nat)
    requires n <= HARD_FRAME_BYTES
    ensures ReadLength(Groups(n)) == Ok(GotInt(n, []))
  {
    Limits();
    SizeBelow(n, 4);
    ReadsGroups(n, [], INT_BYTES);
    assert Groups(n) + [] == Groups(n);
    hide ReadGroups, Groups, Limit;
  }

  /** As with a length of five, and nothing of the payload. */
  lemma CutFrameLooksClean(limit: nat)
    requires 5 <= limit <= HARD_FRAME_BYTES
    ensures Parse([5], limit) == Err(CleanEnd)
  {
    assert Groups(5) == [5];
    hide Parse, Groups;
    CleanEndExactly([5], limit);
  }

  // ---- what is refused -----------------------------------------------------------------------------

  /** A frame is built for a payload from one byte to the limit, and for no other. */
  lemma BuildsExactly(payload: Data, limit: nat)
    ensures
      var r := Build(payload, limit);
      && (r.Ok? <==> 0 < |payload| <= limit)
      && (payload == [] ==> r == Err(EmptyFrame)) && (|payload| > limit > 0 ==> r == Err(FrameTooLarge))
  {
  }

  /** A length in its own encoding is refused when no frame may have it, or the payload is not all there. */
  lemma LengthRefused(v: Int32, rest: Data, limit: nat)
    ensures
      var r := Parse(PutInt(v) + rest, limit);
      && (v < 0 ==> r == Err(NegativeLength)) && (v == 0 ==> r == Err(EmptyFrame))
      && (v > limit ==> r == Err(FrameTooLarge))
      && (0 < v <= limit && 0 < |rest| < v ==> r == Err(CutShort))
      && (0 < v <= limit && |rest| >= v ==> r.Ok? && r.value.payload == rest[..v])
  {
    hide ReadGroups, Groups;
    Limits();
    SizeBelow(Unsigned32(v), INT_BYTES);
    ReadsGroups(Unsigned32(v), rest, INT_BYTES);
    assert PutInt(v) == Groups(Unsigned32(v)) && |PutInt(v) + rest| == |PutInt(v)| + |rest|;
  }

  /** A length in more bytes than it needs, or in more than five, is refused; so is one that is cut. */
  lemma PaddingRefused(d: Data, limit: nat)
    ensures ReadInt(d).Ok? && |d| - |ReadInt(d).value.rest| != |PutInt(ReadInt(d).value.value)| ==>
      Parse(d, limit) == Err(OverlongLength)
    ensures Continued(d, 5) ==> Parse(d, limit) == Err(OverlongLength)
    ensures 0 < |d| < 5 && Continued(d, |d|) ==> Parse(d, limit) == Err(CutShort)
  {
    hide ReadGroups, Groups;
    if ReadInt(d).Ok? { UnsignedSigned(ReadGroups(d, INT_BYTES).value.value % MOD32); }
    if Continued(d, 5) {
      assert Continued(d, 4);
      EndsAt(d, 5, 4);
    }
    if 0 < |d| < 5 && Continued(d, |d|) { EndsAt(d, 5, |d|); }
  }

  // ---- a stream of frames -------------------------------------------------------------------------

  predicate Framable(payloads: seq<Data>, limit: nat) {
    forall i :: 0 <= i < |payloads| ==> payloads[i] != [] && |payloads[i]| <= limit
  }

  function BuildAll(payloads: seq<Data>, limit: nat): Data
    requires Framable(payloads, limit)
    decreases |payloads|
  {
    if payloads == [] then [] else Build(payloads[0], limit).value + BuildAll(payloads[1..], limit)
  }

  datatype GotAll = GotAll(payloads: seq<Data>, error: FrameError)

  function ParseAll(d: Data, limit: nat): GotAll
    decreases |d|
  {
    match Parse(d, limit)
    case Err(e) => GotAll([], e)
    case Ok(got) =>
      FrameShorter(d, limit);
      var more := ParseAll(got.rest, limit);
      GotAll([got.payload] + more.payloads, more.error)
  }

  lemma FrameShorter(d: Data, limit: nat)
    requires Parse(d, limit).Ok?
    ensures |Parse(d, limit).value.rest| < |d|
  {
    ReadsLengthShorter(d);
    hide ReadLength;
  }

  /** Frames written one after another are read in that order, and then the stream ends cleanly. */
  lemma {:induction false} ParsesAll(payloads: seq<Data>, limit: nat)
    requires limit <= HARD_FRAME_BYTES && Framable(payloads, limit)
    ensures ParseAll(BuildAll(payloads, limit), limit) == GotAll(payloads, CleanEnd)
    decreases |payloads|
  {
    hide Parse, Build;
    if payloads == [] {
      EmptyEnds(limit);
    } else {
      ParsesBuilt(payloads[0], BuildAll(payloads[1..], limit), limit);
      ParsesAll(payloads[1..], limit);
      assert [payloads[0]] + payloads[1..] == payloads;
    }
  }

  lemma EmptyEnds(limit: nat)
    ensures Parse([], limit) == Err(CleanEnd)
  {
  }

  // ---- the framer ------------------------------------------------------------------------------------

  lemma UnsignedSigned(n: Uint32)
    ensures Unsigned32(Signed32(n)) == n
  {
  }

  /** Where the loop is: `prefix` read, and nothing decided. */
  ghost predicate Midway(d: Data, prefix: Data, rest: Data, done: nat, scale: nat) {
    && |prefix| < INT_BYTES && d == prefix + rest
    && Partway(d, INT_BYTES, done, scale, rest, INT_BYTES - |prefix|)
  }

  /** One byte more: it ends the length, or the length goes on, or it has gone on too long. */
  lemma LengthTurn(d: Data, prefix: Data, rest: Data, done: nat, scale: nat)
    requires Midway(d, prefix, rest, done, scale)
    ensures rest == [] ==> ReadLength(d) == Err(if d == [] then CleanEnd else CutShort) && d == prefix
    ensures rest != [] && rest[0] < 128 ==>
      var v := Kept(Grown(done, rest[0], scale), MOD32);
      ReadLength(d) == if |prefix| + 1 != Size(v) then Err(OverlongLength) else Ok(GotInt(Signed32(v), rest[1..]))
    ensures rest != [] ==> d == (prefix + [rest[0]]) + rest[1..]
    ensures rest != [] && rest[0] >= 128 && |prefix| + 1 == INT_BYTES ==> ReadLength(d) == Err(OverlongLength)
    ensures rest != [] && rest[0] >= 128 && |prefix| + 1 < INT_BYTES ==>
      Midway(d, prefix + [rest[0]], rest[1..], Grown(done, rest[0] - 128, scale), scale * 128)
  {
    hide ReadGroups, Partway, Groups, Grown;
    Turn(d, INT_BYTES, done, scale, rest, INT_BYTES - |prefix|);
    if rest != [] { assert d == (prefix + [rest[0]]) + rest[1..]; }
  }

  /** The length's bytes are kept, so that the frame can be kept whole. */
  method ReadFrameLength(source: Source) returns (length: Result<Int32, FrameError>, prefix: Data)
    requires source.Valid()
    modifies source
    ensures source.Valid()
    ensures
      match ReadLength(old(source.Rest()))
      case Ok(got) => length == Ok(got.value) && source.Rest() == got.rest
                      && old(source.Rest()) == prefix + got.rest
      case Err(e) => length == Err(e)
  {
    hide ReadLength, Partway, Groups, Midway, Added, Kept, Grown;
    ghost var d := source.Rest();
    ghost var done: nat := 0;
    var result: Uint32, scale: nat := 0, 1;
    prefix := [];
    MidwayStarts(d);
    while true
      invariant source.Valid() && Midway(d, prefix, source.Rest(), done, scale)
      invariant result == Kept(done, MOD32)
      decreases INT_BYTES - |prefix|
    {
      LengthTurn(d, prefix, source.Rest(), done, scale);
      MidwayIs(d, prefix, source.Rest(), done, scale);
      var b := source.ReadFull(1);
      if b.Err? { return Err(if prefix != [] then CutShort else CleanEnd), []; }
      prefix := prefix + [b.value[0]];
      var bits := b.value[0] % 128;
      AddedIs(done, bits, scale, MOD32);
      result := Added(result, bits, scale, MOD32);
      if b.value[0] < 128 {
        UnsignedSigned(result);
        var size := VarIntSize(Signed32(result));
        if size != |prefix| { return Err(OverlongLength), []; }
        return Ok(Signed32(result)), prefix;
      }
      if |prefix| == INT_BYTES { return Err(OverlongLength), []; }
      done, scale := Grown(done, bits, scale), scale * 128;
    }
  }

  lemma MidwayStarts(d: Data)
    ensures Midway(d, [], d, 0, 1) && Kept(0, MOD32) == 0
  {
    hide ReadGroups;
    Start(d, INT_BYTES, MOD32);
    assert [] + d == d;
  }

  lemma MidwayIs(d: Data, prefix: Data, rest: Data, done: nat, scale: nat)
    requires Midway(d, prefix, rest, done, scale)
    ensures |prefix| < INT_BYTES && d == prefix + rest
  {
  }

  /** One frame, into a buffer of its own that keeps the prefix. */
  method ReadFrame(source: Source, limit: nat) returns (frame: Result<(Data, nat), FrameError>)
    requires source.Valid()
    modifies source
    ensures source.Valid()
    ensures
      match Parse(old(source.Rest()), limit)
      case Ok(got) => frame.Ok? && frame.value.0 == got.wire && frame.value.1 <= |got.wire|
                      && got.wire[frame.value.1..] == got.payload && source.Rest() == got.rest
      case Err(e) => frame == Err(e)
  {
    hide ReadLength;
    var length, prefix := ReadFrameLength(source);
    if length.Err? { return Err(length.error); }
    if length.value < 0 { return Err(NegativeLength); }
    if length.value == 0 { return Err(EmptyFrame); }
    if length.value > limit { return Err(FrameTooLarge); }
    ghost var rest := source.Rest();
    var payload := source.ReadFull(length.value);
    if payload.Err? { return Err(if payload.error == AtEnd then CleanEnd else CutShort); }
    assert (prefix + rest)[..|prefix| + length.value] == prefix + rest[..length.value];
    return Ok((prefix + payload.value, |prefix|));
  }

  /** Prefix and payload, copied into one buffer. */
  method BuildFrame(payload: array<Byte>, limit: nat) returns (frame: Result<(array<Byte>, nat), FrameError>)
    requires limit <= HARD_FRAME_BYTES
    ensures
      match Build(payload[..], limit)
      case Ok(wire) => frame.Ok? && frame.value.0[..] == wire && frame.value.1 <= |wire| && wire[frame.value.1..] == payload[..]
      case Err(e) => frame == Err(e)
  {
    if payload.Length == 0 { return Err(EmptyFrame); }
    if payload.Length > limit { return Err(FrameTooLarge); }
    hide Groups;
    var lengthBytes := VarIntSize(payload.Length);
    var wire := new Byte[lengthBytes + payload.Length];
    var n := PutVarInt(wire, payload.Length);
    forall i | 0 <= i < payload.Length { wire[lengthBytes + i] := payload[i]; }
    assert wire[..lengthBytes] == Groups(payload.Length) && wire[lengthBytes..] == payload[..];
    assert wire[..] == wire[..lengthBytes] + wire[lengthBytes..];
    return Ok((wire, lengthBytes));
  }
}
