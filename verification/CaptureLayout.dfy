/**
 Where things are in a capture, in numbers (capture/format.go): the first bytes of every
 record and of the trailer, as written and as read; and what a reader takes for a record,
 which is a length, a body of that length and that body's checksum, and nothing else.
 */
module CaptureLayout {
  import opened Wrappers
  import opened Bytes
  import opened CaptureFields
  import opened CaptureFormat
  import opened CaptureTheorems

  // ---- as written -----------------------------------------------------------------------------------

  /** The first fields of a record have one width each, so its first bytes are always in the same place. */
  predicate Heads(body: Data, kind: Byte, a: nat, b: nat) {
    && |body| >= 17 && body[0] == kind && body[1..9] == BigEndian(8, a) && body[9..17] == BigEndian(8, b)
  }

  lemma WrittenTwo(fs: seq<Field>, table: Table)
    requires |fs| >= 2
    ensures WrittenAll(fs, table)
      == Written(fs[0], table) + (Written(fs[1], Extended(table, fs[0])) + WrittenAll(fs[2..], Extended(Extended(table, fs[0]), fs[1])))
  {
    hide Written, Extended;
    WrittenFirst(fs, table);
    WrittenFirst(fs[1..], Extended(table, fs[0]));
    assert fs[1..][1..] == fs[2..];
  }

  lemma WrittenHead(fs: seq<Field>, table: Table, kind: Byte, a: nat, b: nat)
    requires |fs| >= 3 && fs[0] == Small(kind) && fs[1] == Long(a) && fs[2] == Long(b)
    ensures Heads(WrittenAll(fs, table), kind, a, b)
  {
    hide BigEndian, WrittenAll;
    WrittenTwo(fs, table);
    WrittenFirst(fs[2..], table);
    var rest := WrittenAll(fs[2..][1..], table);
    var body := WrittenAll(fs, table);
    assert body == [kind] + (BigEndian(8, a) + (BigEndian(8, b) + rest));
    Taken([kind], BigEndian(8, a), BigEndian(8, b), rest);
  }

  lemma Taken(k: Data, a: Data, b: Data, rest: Data)
    requires |k| == 1 && |a| == |b| == 8
    ensures
      var d := k + (a + (b + rest));
      |d| >= 17 && d[0] == k[0] && d[1..9] == a && d[9..17] == b && d[17..] == rest
  {
  }

  lemma WrittenMiddle(fs: seq<Field>, table: Table, c: nat, direction: Byte, flags: Byte)
    requires |fs| >= 6 && fs[0].Small? && fs[1].Long? && fs[2].Long?
    requires fs[3] == Long(c) && fs[4] == Small(direction) && fs[5] == Small(flags)
    ensures
      var body := WrittenAll(fs, table);
      |body| >= 27 && body[17..25] == BigEndian(8, c) && body[25] == direction && body[26] == flags
  {
    hide BigEndian, WrittenAll;
    WrittenTwo(fs, table);
    WrittenTwo(fs[2..], table);
    WrittenTwo(fs[2..][2..], table);
    var rest := WrittenAll(fs[2..][2..][2..], table);
    assert fs[2..][2..] == fs[4..];
    var k, a, b := Written(fs[0], table), Written(fs[1], table), Written(fs[2], table);
    var more := BigEndian(8, c) + ([direction] + ([flags] + rest));
    assert WrittenAll(fs, table) == k + (a + (b + more));
    Taken(k, a, b, more);
    assert more[..8] == BigEndian(8, c) && more[8] == direction && more[9] == flags;
    var body := WrittenAll(fs, table);
    assert body[17..25] == more[..8] && body[25] == more[8] && body[26] == more[9];
  }

  /** The kind's number: raw frame 1, packet 2, secret 3, rejected 4. */
  function KindNumber(stage: Stage): nat {
    match stage
    case RawFrame => 1
    case Packet => 2
    case Secret => 3
    case Rejected => 4
    case UnknownStage => 5
  }

  /** A record's first twenty-seven bytes: kind, sequence, frame, elapsed, direction, whether it is redacted. */
  lemma RecordWritten(o: Observation, table: Table)
    requires o.stage != UnknownStage
    ensures
      var body := ObservationBody(o, table);
      && |body| >= 27 && body[0] == KindNumber(o.stage)
      && body[1..9] == BigEndian(8, o.sequence) && body[9..17] == BigEndian(8, o.frame)
      && body[17..25] == BigEndian(8, o.elapsed % 0x1_0000_0000_0000_0000)
      && body[25] == o.direction && body[26] == if o.redacted then 1 else 0
  {
    hide WrittenAll, BigEndian;
    var fs := Fields(KindFor(o.stage).value, o);
    WrittenHead(fs, table, KindByte(KindFor(o.stage).value), o.sequence, o.frame);
    WrittenMiddle(fs, table, Unsigned64(o.elapsed), o.direction, if o.redacted then 1 else 0);
    assert Unsigned64(o.elapsed) == o.elapsed % 0x1_0000_0000_0000_0000;
  }

  /** It ends with its payload, and the payload's length in four bytes before it. */
  lemma RecordEnds(o: Observation, table: Table)
    requires o.stage != UnknownStage
    ensures
      var body, n := ObservationBody(o, table), |o.bytes|;
      |body| >= 4 + n && body[|body| - n..] == o.bytes && body[|body| - n - 4..|body| - n] == BigEndian(4, n)
  {
    hide WrittenAll, BigEndian;
    var fs := Fields(KindFor(o.stage).value, o);
    var front := fs[..|fs| - 1];
    LastWritten(fs, table);
    var head := WrittenAll(front, table);
    assert ObservationBody(o, table) == head + (BigEndian(4, |o.bytes|) + o.bytes);
  }

  lemma LastWritten(fs: seq<Field>, table: Table)
    requires fs != [] && fs[|fs| - 1].Body?
    ensures
      var d := fs[|fs| - 1].body;
      WrittenAll(fs, table) == WrittenAll(fs[..|fs| - 1], table) + (BigEndian(4, |d|) + d)
  {
  }

  /** A trailer's first seventeen: kind 0, the count, the last sequence. */
  lemma TrailerWritten(t: Trailer, table: Table)
    ensures
      var body := TrailerBody(t, table);
      |body| >= 17 && body[0] == 0 && body[1..9] == BigEndian(8, t.records) && body[9..17] == BigEndian(8, t.lastSequence)
  {
    hide WrittenAll, BigEndian;
    WrittenHead(TrailerFields(t), table, 0, t.records, t.lastSequence);
  }

  // ---- as read ------------------------------------------------------------------------------------------

  lemma ReadFirst(shapes: seq<Shape>, d: Data, table: Table)
    requires shapes != [] && ReadAll(shapes, d, table).Some?
    ensures
      var first := Read(shapes[0], d, table);
      && first.Some? && ReadAll(shapes[1..], first.value.rest, first.value.table).Some?
      && ReadAll(shapes, d, table).value.fields
         == [first.value.field] + ReadAll(shapes[1..], first.value.rest, first.value.table).value.fields
  {
    hide Read;
  }

  lemma ReadHead(shapes: seq<Shape>, d: Data, table: Table)
    requires |shapes| >= 3 && shapes[0] == SmallShape && shapes[1] == LongShape && shapes[2] == LongShape
    requires ReadAll(shapes, d, table).Some?
    ensures
      var fs := ReadAll(shapes, d, table).value.fields;
      && |d| >= 17 && |fs| >= 3 && fs[1] == Long(Number(d[1..9])) && fs[2] == Long(Number(d[9..17]))
      && ReadAll(shapes[3..], d[17..], table).Some? && fs[3..] == ReadAll(shapes[3..], d[17..], table).value.fields
  {
    hide ReadAll, Number;
    ReadFirst(shapes, d, table);
    ReadFirst(shapes[1..], d[1..], table);
    ReadFirst(shapes[1..][1..], d[1..][8..], table);
    assert shapes[1..][1..][1..] == shapes[3..] && d[1..][8..][8..] == d[17..];
    assert d[1..][..8] == d[1..9] && d[1..][8..][..8] == d[9..17];
  }

  lemma ReadMiddle(shapes: seq<Shape>, d: Data, table: Table)
    requires |shapes| >= 3 && shapes[0] == LongShape && shapes[1] == SmallShape && shapes[2] == SmallShape
    requires ReadAll(shapes, d, table).Some?
    ensures
      var fs := ReadAll(shapes, d, table).value.fields;
      |d| >= 10 && |fs| >= 3 && fs[0] == Long(Number(d[..8])) && fs[1] == Small(d[8]) && fs[2] == Small(d[9])
  {
    hide ReadAll, Number;
    ReadFirst(shapes, d, table);
    ReadFirst(shapes[1..], d[8..], table);
    ReadFirst(shapes[1..][1..], d[8..][1..], table);
    assert d[8..][1..][0] == d[9];
  }

  /** Nothing else is a kind. */
  lemma UnknownRefused(body: Data, table: Table)
    requires body == [] || body[0] > 4
    ensures Decode(body, table).None?
  {
  }

  /** What a record that is taken says is where it is written. */
  lemma RecordRead(body: Data, table: Table)
    requires Decode(body, table).Some? && Decode(body, table).value.entry.RecordEntry?
    ensures
      var r := Decode(body, table).value.entry.record;
      && |body| >= 27
      && (body[0] == 1 <==> r.kind == RawFrameKind) && (body[0] == 2 <==> r.kind == PacketKind)
      && (body[0] == 3 <==> r.kind == SecretKind) && (body[0] == 4 <==> r.kind == RejectedKind)
      && r.sequence == Number(body[1..9]) && r.frame == Number(body[9..17])
      && r.elapsed % 0x1_0000_0000_0000_0000 == Number(body[17..25])
      && r.direction == body[25] && (r.redacted <==> body[26] % 2 == 1)
  {
    hide ReadAll, Number;
    var kind := KindOfByte(body[0]).value;
    var shapes := RecordShapes(kind);
    var fs := ReadAll(shapes, body, table).value.fields;
    ReadAllLength(shapes, body, table);
    ReadHead(shapes, body, table);
    ReadMiddle(shapes[3..], body[17..], table);
    assert fs[3] == fs[3..][0] && fs[4] == fs[3..][1] && fs[5] == fs[3..][2];
    assert body[17..][..8] == body[17..25];
    NumberBelow(body[1..9]);
    NumberBelow(body[9..17]);
    NumberBelow(body[17..25]);
    assert Decode(body, table).value.entry.record == RecordOf(kind, fs);
    SignedBack(Number(body[17..25]));
  }

  lemma SignedBack(n: Uint64)
    ensures Signed64(n) % 0x1_0000_0000_0000_0000 == n
  {
  }

  lemma TrailerRead(body: Data, table: Table)
    requires Decode(body, table).Some? && Decode(body, table).value.entry.TrailerEntry?
    ensures
      var t := Decode(body, table).value.entry.trailer;
      |body| >= 17 && body[0] == 0 && t.records == Number(body[1..9]) && t.lastSequence == Number(body[9..17])
  {
    hide ReadAll, Number;
    ReadAllLength(TrailerShapes(), body, table);
    ReadHead(TrailerShapes(), body, table);
    NumberBelow(body[1..9]);
    NumberBelow(body[9..17]);
  }

  // ---- what is taken for a record -----------------------------------------------------------------------------

  /** The bytes begin with a length within the limit, a body of that length and its checksum. */
  predicate Sealed(d: Data, body: Data, limit: nat, checksum: Checksum) {
    |body| < 0x1_0000_0000 && |body| <= limit && Framed(body, checksum) <= d
  }

  lemma SealedParts(d: Data, body: Data, limit: nat, checksum: Checksum)
    ensures Sealed(d, body, limit, checksum) <==>
      && |body| <= limit && 8 + |body| <= |d| && Number(d[..4]) == |body| && d[4..4 + |body|] == body
      && Number(d[4 + |body|..8 + |body|]) == checksum(body)
  {
    hide BigEndian, Number;
    var n := |body|;
    if Sealed(d, body, limit, checksum) {
      FramedParts(body, d[8 + n..], checksum);
      assert d == Framed(body, checksum) + d[8 + n..];
    }
    if n <= limit && 8 + n <= |d| && Number(d[..4]) == n && d[4..4 + n] == body && Number(d[4 + n..8 + n]) == checksum(body) {
      NumberBelow(d[..4]);
      BigEndianOfNumber(d[..4]);
      BigEndianOfNumber(d[4 + n..8 + n]);
      assert d[..8 + n] == d[..4] + d[4..4 + n] + d[4 + n..8 + n];
    }
  }

  /** The reader yields a record exactly when the bytes begin with one sealed body that decodes to it. */
  lemma YieldsExactly(d: Data, table: Table, limit: nat, checksum: Checksum, r: Record)
    ensures Next(Opened(d, table), limit, checksum).1 == Yields(r) <==>
      exists body :: Sealed(d, body, limit, checksum) && Decode(body, table).Some? && Decode(body, table).value.entry == RecordEntry(r)
  {
    hide Decode, Number, Sealed;
    if Next(Opened(d, table), limit, checksum).1 == Yields(r) {
      var body := d[4..4 + Number(d[..4])];
      SealedParts(d, body, limit, checksum);
    }
    if body :| Sealed(d, body, limit, checksum) && Decode(body, table).Some? && Decode(body, table).value.entry == RecordEntry(r) {
      SealedParts(d, body, limit, checksum);
    }
  }

  /** A body that is not what its checksum was taken of is refused as corrupt, and nothing after it is read. */
  lemma DamageRefused(body: Data, stored: Uint32, rest: Data, table: Table, limit: nat, checksum: Checksum)
    requires |body| < 0x1_0000_0000 && |body| <= limit && stored != checksum(body)
    ensures
      var d := BigEndian(4, |body|) + body + BigEndian(4, stored) + rest;
      All(Opened(d, table), limit, checksum) == ReadOut([], Failed(CorruptRecord), None)
  {
    hide BigEndian, Number, Decode;
    var d := BigEndian(4, |body|) + body + BigEndian(4, stored) + rest;
    var n := |body|;
    NumberOf32(n);
    NumberOf32(stored);
    assert d[..4] == BigEndian(4, n) && d[4..4 + n] == body && d[4 + n..8 + n] == BigEndian(4, stored);
  }

  /** With frames of up to so many bytes a record may have a mebibyte more; a longer one is refused before it is read. */
  lemma TooLargeExactly(d: Data, table: Table, frameBytes: nat, checksum: Checksum)
    ensures Next(Opened(d, table), frameBytes + MAX_HEADER_BYTES, checksum).1 == Failed(RecordTooLarge) <==>
      |d| >= 4 && Number(d[..4]) > frameBytes + 1_048_576
  {
    hide Decode, Number;
  }

  /** Reading stops, without a record, for exactly these reasons: bytes missing, a body that is damaged or decodes to nothing, or the end. */
  lemma StopsExactly(d: Data, table: Table, limit: nat, checksum: Checksum)
    ensures
      var outcome := Next(Opened(d, table), limit, checksum).1;
      var n := if |d| < 4 then 0 else Number(d[..4]);
      && (outcome == Failed(Truncated) <==> 0 < |d| && n <= limit && (|d| < 4 || |d| < 8 + n))
      && (outcome == Failed(CorruptRecord) <==>
            && |d| >= 4 && n <= limit && |d| >= 8 + n
            && (Number(d[4 + n..8 + n]) != checksum(d[4..4 + n]) || Decode(d[4..4 + n], table).None?))
      && (outcome == EndOfCapture <==>
            || d == []
            || (&& |d| >= 4 && n <= limit && |d| >= 8 + n && Number(d[4 + n..8 + n]) == checksum(d[4..4 + n])
                && Decode(d[4..4 + n], table).Some? && Decode(d[4..4 + n], table).value.entry.TrailerEntry?))
  {
    hide Decode, Number;
  }
}
