/**
 The compression envelope (wire/java/compression.go) and the pipeline a packet goes
 through, from its ID and payload to a frame and back (wire/java/framer.go). `Zlib`
 stands for the two halves of zlib; all that is asked of it is that inflating undoes
 deflating, and that a stream is not empty.
 */
module Compression {
  import opened Wrappers
  import opened Bytes
  import opened VarInt
  import opened VarIntLoops
  import opened Framer

  /** `inflate` reads one stream off the front: what it holds and what follows it. */
  datatype Zlib = Zlib(deflate: Data -> Data, inflate: Data -> Option<(Data, Data)>) {
    ghost predicate Inverts() {
      forall body :: inflate(deflate(body)) == Some((body, [])) && deflate(body) != []
    }
  }

  datatype Limits = Limits(frameBytes: nat, decompressedBytes: nat) {
    /** The hard ceilings a limit may not exceed. */
    predicate Valid() {
      frameBytes <= HARD_FRAME_BYTES && decompressedBytes <= 0x1000_0000
    }
  }

  datatype Policy = Strict | Compatible

  datatype Control = Control(enabled: bool, threshold: int, policy: Option<Policy>)

  datatype Error =
    | InvalidCompression | CompressionPolicy | DecompressedTooLarge | EnvelopeTooLarge
    | NegativeDataLength | BadDataLength | TrailingBytes

  function Validated(c: Control): Option<Error> {
    if c.enabled && (c.threshold < 0 || c.policy.None?) then Some(InvalidCompression) else None
  }

  /** Strict: compressed exactly from the threshold up. Compatible: either way. */
  function Allowed(p: Policy, compressed: bool, size: nat, threshold: int): Option<Error> {
    match p
    case Strict =>
      if compressed && size < threshold then Some(CompressionPolicy)
      else if !compressed && size >= threshold then Some(CompressionPolicy)
      else None
    case Compatible => None
  }

  /** Exactly one stream, of exactly the declared size, and nothing after it. */
  function InflateExact(z: Zlib, envelope: Data, size: nat): Result<Data, Error> {
    var got := z.inflate(envelope);
    if got.None? then Err(InvalidCompression)
    else if |got.value.0| != size then Err(InvalidCompression)
    else if got.value.1 != [] then Err(TrailingBytes)
    else Ok(got.value.0)
  }

  function Decode(z: Zlib, payload: Data, c: Control, l: Limits): Result<Data, Error> {
    if Validated(c).Some? then Err(Validated(c).value)
    else if !c.enabled then Ok(payload)
    else
      match ReadInt(payload)
      case Err(_) => Err(BadDataLength)
      case Ok(declared) =>
        var n := declared.value;
        var envelope := declared.rest;
        if n < 0 then Err(NegativeDataLength)
        else if n == 0 then
          if |envelope| > l.decompressedBytes then Err(DecompressedTooLarge)
          else
            var refused := Allowed(c.policy.value, false, |envelope|, c.threshold);
            if refused.Some? then Err(refused.value) else Ok(envelope)
        else if n > l.decompressedBytes then Err(DecompressedTooLarge)
        else
          match InflateExact(z, envelope, n)
          case Err(e) => Err(e)
          case Ok(body) =>
            var refused := Allowed(c.policy.value, true, |body|, c.threshold);
            if refused.Some? then Err(refused.value) else Ok(body)
  }

  function Encode(z: Zlib, body: Data, c: Control, l: Limits): Result<Data, Error>
    requires l.Valid()
  {
    if Validated(c).Some? then Err(Validated(c).value)
    else if !c.enabled then (if |body| > l.frameBytes then Err(EnvelopeTooLarge) else Ok(body))
    else if |body| > l.decompressedBytes then Err(DecompressedTooLarge)
    else
      var envelope := if |body| < c.threshold then PutInt(0) + body else PutInt(|body|) + z.deflate(body);
      if |envelope| > l.frameBytes then Err(EnvelopeTooLarge) else Ok(envelope)
  }

  // ---- the round trip, and the one body it fails for --------------------------------------------

  lemma UncompressedBack(z: Zlib, body: Data, c: Control, l: Limits)
    requires l.Valid() && c.enabled && Encode(z, body, c, l).Ok? && |body| < c.threshold
    ensures Decode(z, Encode(z, body, c, l).value, c, l) == Ok(body)
  {
    hide ReadInt, PutInt;
    IntRoundTrip(0, body);
  }

  lemma CompressedBack(z: Zlib, body: Data, c: Control, l: Limits)
    requires l.Valid() && z.Inverts() && c.enabled && Encode(z, body, c, l).Ok? && |body| >= c.threshold && body != []
    ensures Decode(z, Encode(z, body, c, l).value, c, l) == Ok(body)
  {
    hide ReadInt, PutInt;
    IntRoundTrip(|body|, z.deflate(body));
  }

  /** An empty body at threshold zero is written as a stream, and read as that stream's bytes, or refused. */
  lemma EmptyMisread(z: Zlib, body: Data, c: Control, l: Limits)
    requires l.Valid() && z.Inverts() && c.enabled && Encode(z, body, c, l).Ok? && |body| >= c.threshold && body == []
    ensures Decode(z, Encode(z, body, c, l).value, c, l) != Ok(body)
  {
    hide ReadInt, PutInt;
    IntRoundTrip(0, z.deflate(body));
    assert z.deflate(body) != [];
  }

  /** Whatever is encoded decodes to itself, under either policy, unless it is empty and the threshold is zero. */
  lemma DecodesEncoded(z: Zlib, body: Data, c: Control, l: Limits)
    requires l.Valid() && z.Inverts() && Encode(z, body, c, l).Ok?
    ensures Decode(z, Encode(z, body, c, l).value, c, l) == Ok(body) <==> !(c.enabled && c.threshold == 0 && body == [])
  {
    if c.enabled {
      if |body| < c.threshold {
        UncompressedBack(z, body, c, l);
      } else if body != [] {
        CompressedBack(z, body, c, l);
      } else {
        EmptyMisread(z, body, c, l);
      }
    }
  }

  /** No policy accepts a body beyond the limit, whatever was declared. */
  lemma DecodedWithinLimit(z: Zlib, payload: Data, c: Control, l: Limits)
    requires c.enabled && Decode(z, payload, c, l).Ok?
    ensures |Decode(z, payload, c, l).value| <= l.decompressedBytes
  {
    hide ReadInt;
  }

  // ---- what is refused ----------------------------------------------------------------------------

  /** A control that may be used: a disabled one always may. */
  predicate Usable(c: Control) {
    c.enabled ==> c.threshold >= 0 && c.policy.Some?
  }

  /**
   The envelope says it holds `body`: as it is under the length zero, or as the one stream
   that follows its length. Nothing in it is beyond the limit.
   */
  predicate Holds(z: Zlib, payload: Data, n: Int32, body: Data, l: Limits) {
    && ReadInt(payload).Ok? && ReadInt(payload).value.value == n
    && 0 <= n <= l.decompressedBytes && |body| <= l.decompressedBytes
    && var envelope := ReadInt(payload).value.rest;
       if n == 0 then envelope == body else z.inflate(envelope) == Some((body, [])) && |body| == n
  }

  /**
   What the policy is for. A well-formed envelope is refused exactly under the strict policy,
   when its body was compressed below the threshold or left as it is from the threshold up.
   Otherwise its body is taken.
   */
  lemma PolicyExactly(z: Zlib, payload: Data, n: Int32, body: Data, c: Control, l: Limits)
    requires c.enabled && Usable(c) && Holds(z, payload, n, body, l)
    ensures
      var r := Decode(z, payload, c, l);
      && (r == Err(CompressionPolicy) <==>
            c.policy == Some(Strict) && ((n > 0 && |body| < c.threshold) || (n == 0 && |body| >= c.threshold)))
      && (r == Err(CompressionPolicy) || r == Ok(body))
  {
    hide ReadInt;
  }

  /** Without an envelope the payload is the body; with one, whatever holds no body is refused, and says why. */
  lemma RefusesOthers(z: Zlib, payload: Data, c: Control, l: Limits)
    ensures
      var r := Decode(z, payload, c, l);
      && (!Usable(c) ==> r == Err(InvalidCompression))
      && (!c.enabled ==> r == Ok(payload))
      && (c.enabled && Usable(c) ==>
            match ReadInt(payload)
            case Err(_) => r == Err(BadDataLength)
            case Ok(got) =>
              && (got.value < 0 ==> r == Err(NegativeDataLength))
              && (got.value > l.decompressedBytes ==> r == Err(DecompressedTooLarge))
              && (got.value == 0 && |got.rest| > l.decompressedBytes ==> r == Err(DecompressedTooLarge))
              && (0 < got.value <= l.decompressedBytes ==>
                    match z.inflate(got.rest)
                    case None => r == Err(InvalidCompression)
                    case Some((body, after)) =>
                      && (|body| != got.value ==> r == Err(InvalidCompression))
                      && (|body| == got.value && after != [] ==> r == Err(TrailingBytes))))
  {
    hide ReadInt;
  }

  /** And what the encoder refuses: a control that may not be used, a body beyond the limit, an envelope beyond a frame. */
  lemma EncodesExactly(z: Zlib, body: Data, c: Control, l: Limits)
    requires l.Valid()
    ensures
      var r := Encode(z, body, c, l);
      && (!Usable(c) ==> r == Err(InvalidCompression))
      && (!c.enabled ==> r == if |body| <= l.frameBytes then Ok(body) else Err(EnvelopeTooLarge))
      && (c.enabled && Usable(c) ==>
            && (|body| > l.decompressedBytes <==> r == Err(DecompressedTooLarge))
            && (|body| <= l.decompressedBytes && |body| < c.threshold ==>
                  r == if 1 + |body| <= l.frameBytes then Ok([0] + body) else Err(EnvelopeTooLarge))
            && (|body| <= l.decompressedBytes && |body| >= c.threshold ==>
                  var envelope := PutInt(|body|) + z.deflate(body);
                  r == if |envelope| <= l.frameBytes then Ok(envelope) else Err(EnvelopeTooLarge)))
  {
    ZeroIsOneByte();
    assert PutInt(0) == [0];
    hide PutInt;
  }

  // ---- packet bodies -------------------------------------------------------------------------------

  datatype Packet = Packet(id: Int32, payload: Data)

  function Join(p: Packet, l: Limits): Option<Data> {
    if |PutInt(p.id)| > l.frameBytes || |p.payload| > l.frameBytes - |PutInt(p.id)| then None
    else Some(PutInt(p.id) + p.payload)
  }

  function Split(body: Data): Option<Packet> {
    match ReadInt(body)
    case Err(_) => None
    case Ok(id) => Some(Packet(id.value, id.rest))
  }

  lemma SplitsJoined(p: Packet, l: Limits)
    requires Join(p, l).Some?
    ensures Split(Join(p, l).value) == Some(p) && Join(p, l).value != []
  {
    IntRoundTrip(p.id, p.payload);
  }

  /** A received packet is shorter than the decompressed limit, or, without an envelope, than its frame. */
  lemma PacketWithinLimit(z: Zlib, payload: Data, c: Control, l: Limits)
    requires Decode(z, payload, c, l).Ok? && Split(Decode(z, payload, c, l).value).Some?
    ensures |Split(Decode(z, payload, c, l).value).value.payload| < if c.enabled then l.decompressedBytes else |payload|
  {
    var body := Decode(z, payload, c, l).value;
    if c.enabled { DecodedWithinLimit(z, payload, c, l); } else { assert body == payload; }
    ReadsWithin(body, INT_BYTES);
  }

  /** A packet on its way out: joined, enveloped, framed. */
  function Outgoing(z: Zlib, p: Packet, c: Control, l: Limits): Option<Data>
    requires l.Valid()
  {
    var body := Join(p, l);
    if body.None? then None
    else
      var envelope := Encode(z, body.value, c, l);
      if envelope.Err? then None
      else
        var wire := Build(envelope.value, l.frameBytes);
        if wire.Err? then None else Some(wire.value)
  }

  /** A packet on its way in, and the bytes after it. */
  function Incoming(z: Zlib, d: Data, c: Control, l: Limits): Option<(Packet, Data)> {
    match Parse(d, l.frameBytes)
    case Err(_) => None
    case Ok(frame) =>
      match Decode(z, frame.payload, c, l)
      case Err(_) => None
      case Ok(body) =>
        var p := Split(body);
        if p.None? then None else Some((p.value, frame.rest))
  }

  /** A packet that goes out comes in unchanged, at every threshold and under either policy. */
  lemma PacketRoundTrip(z: Zlib, p: Packet, rest: Data, c: Control, l: Limits)
    requires l.Valid() && z.Inverts() && Outgoing(z, p, c, l).Some?
    ensures Incoming(z, Outgoing(z, p, c, l).value + rest, c, l) == Some((p, rest))
  {
    hide Parse, Decode, Encode, Split, Join;
    var body := Join(p, l).value;
    SplitsJoined(p, l);
    DecodesEncoded(z, body, c, l);
    var envelope := Encode(z, body, c, l).value;
    BuildNeeds(envelope, l.frameBytes);
    ParsesBuilt(envelope, rest, l.frameBytes);
  }

  /** It goes out exactly when its number and payload fit a frame, and so does what they are enveloped in. */
  lemma GoesOutExactly(z: Zlib, p: Packet, c: Control, l: Limits)
    requires l.Valid()
    ensures
      var body := PutInt(p.id) + p.payload;
      Outgoing(z, p, c, l).Some? <==>
        && |body| <= l.frameBytes
        && (c.enabled ==>
              && Usable(c) && |body| <= l.decompressedBytes
              && (if |body| < c.threshold then 1 + |body| else |PutInt(|body|)| + |z.deflate(body)|) <= l.frameBytes)
  {
    hide Parse, Decode, ReadInt;
    IntRoundTrip(p.id, []);
    IntRoundTrip(0, []);
  }

  lemma BuildNeeds(payload: Data, limit: nat)
    requires Build(payload, limit).Ok?
    ensures payload != [] && |payload| <= limit
  {
  }

  // ---- the encoder and the decoder --------------------------------------------------------------------

  method EncodeCompression(z: Zlib, body: Data, c: Control, l: Limits) returns (r: Result<Data, Error>)
    requires l.Valid()
    ensures r == Encode(z, body, c, l)
  {
    hide PutInt;
    if Validated(c).Some? { return Err(Validated(c).value); }
    if !c.enabled {
      if |body| > l.frameBytes { return Err(EnvelopeTooLarge); }
      return Ok(body);
    }
    if |body| > l.decompressedBytes { return Err(DecompressedTooLarge); }
    if |body| < c.threshold {
      ZeroIsOneByte();
      var envelope := new Byte[1 + |body|];
      var n := PutVarInt(envelope, 0);
      forall i | 0 <= i < |body| { envelope[1 + i] := body[i]; }
      assert envelope[..1] == PutInt(0) && envelope[1..] == body;
      assert envelope[..] == envelope[..1] + envelope[1..];
      if envelope.Length > l.frameBytes { return Err(EnvelopeTooLarge); }
      return Ok(envelope[..]);
    }
    var header := new Byte[INT_BYTES];
    IntRoundTrip(|body|, []);
    var n := PutVarInt(header, |body|);
    var compressed := header[..n];
    compressed := compressed + z.deflate(body);
    if |compressed| > l.frameBytes { return Err(EnvelopeTooLarge); }
    return Ok(compressed);
  }

  lemma ZeroIsOneByte()
    ensures |PutInt(0)| == 1
  {
  }

  method DecodeCompression(z: Zlib, payload: Data, c: Control, l: Limits) returns (r: Result<Data, Error>)
    ensures r == Decode(z, payload, c, l)
  {
    hide ReadInt, InflateExact;
    if Validated(c).Some? { return Err(Validated(c).value); }
    if !c.enabled { return Ok(payload); }
    var source := new Source(payload);
    var declared := ReadVarInt(source);
    if declared.Err? { return Err(BadDataLength); }
    var envelope := source.data[source.pos..];
    if declared.value < 0 { return Err(NegativeDataLength); }
    if declared.value == 0 {
      if |envelope| > l.decompressedBytes { return Err(DecompressedTooLarge); }
      var refused := Allowed(c.policy.value, false, |envelope|, c.threshold);
      if refused.Some? { return Err(refused.value); }
      return Ok(envelope);
    }
    if declared.value > l.decompressedBytes { return Err(DecompressedTooLarge); }
    var body := InflateExact(z, envelope, declared.value);
    if body.Err? { return Err(body.error); }
    var refused := Allowed(c.policy.value, true, |body.value|, c.threshold);
    if refused.Some? { return Err(refused.value); }
    return Ok(body.value);
  }
}
