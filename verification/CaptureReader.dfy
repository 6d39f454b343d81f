/**
 The capture reader (capture/reader.go), proved to do what `CaptureTheorems.Next` says
 with whatever bytes it is given. The JSON header has been read already.
 */
module CaptureReader {
  import opened Wrappers
  import opened Bytes
  import opened CaptureFields
  import opened CaptureFormat
  import opened CaptureTheorems

  /** A position in a record's body. */
  class Cursor {
    const body: Data
    var at: nat

    ghost predicate Valid()
      reads this
    {
      at <= |body|
    }

    ghost function Rest(): Data
      reads this
      requires Valid()
    {
      body[at..]
    }

    constructor (body: Data)
      ensures Valid() && Rest() == body && this.body == body
    {
      this.body, at := body, 0;
    }

    method Take(count: nat) returns (slice: Option<Data>)
      requires Valid()
      modifies this
      ensures Valid()
      ensures slice.Some? <==> count <= |old(Rest())|
      ensures slice.Some? ==> slice.value == old(Rest())[..count] && Rest() == old(Rest())[count..]
      ensures slice.None? ==> Rest() == old(Rest())
    {
      if at + count > |body| { return None; }
      slice := Some(body[at..at + count]);
      at := at + count;
    }

    method Uint8() returns (v: Option<Byte>)
      requires Valid()
      modifies this
      ensures Valid()
      ensures v.Some? <==> |old(Rest())| >= 1
      ensures v.Some? ==> v.value == old(Rest())[0] && Rest() == old(Rest())[1..]
    {
      var slice := Take(1);
      if slice.None? { return None; }
      return Some(slice.value[0]);
    }

    method Uint32() returns (v: Option<Uint32>)
      requires Valid()
      modifies this
      ensures Valid()
      ensures v.Some? <==> |old(Rest())| >= 4
      ensures v.Some? ==> v.value == Number(old(Rest())[..4]) && Rest() == old(Rest())[4..]
    {
      var slice := Take(4);
      if slice.None? { return None; }
      NumberBelow(slice.value);
      return Some(Number(slice.value));
    }

    method Uint64() returns (v: Option<Uint64>)
      requires Valid()
      modifies this
      ensures Valid()
      ensures v.Some? <==> |old(Rest())| >= 8
      ensures v.Some? ==> v.value == Number(old(Rest())[..8]) && Rest() == old(Rest())[8..]
    {
      var slice := Take(8);
      if slice.None? { return None; }
      NumberBelow(slice.value);
      return Some(Number(slice.value));
    }
  }

  // ---- reading a run of fields one at a time ---------------------------------------------------

  /** What is still to be read after some fields, and what all of it comes to. */
  ghost predicate Partway(shapes: seq<Shape>, d: Data, table: Table, i: nat, got: seq<Field>, rest: Data, now: Table) {
    && i <= |shapes| && |got| == i
    && ReadAll(shapes, d, table) ==
         var more := ReadAll(shapes[i..], rest, now);
         if more.None? then None else Some(GotAll(got + more.value.fields, more.value.rest, more.value.table))
  }

  lemma AtStart(shapes: seq<Shape>, d: Data, table: Table)
    ensures Partway(shapes, d, table, 0, [], d, table)
  {
    assert shapes[0..] == shapes;
    var more := ReadAll(shapes, d, table);
    if more.Some? { assert [] + more.value.fields == more.value.fields; }
  }

  lemma OneField(shapes: seq<Shape>, d: Data, table: Table, i: nat, got: seq<Field>, rest: Data, now: Table)
    requires Partway(shapes, d, table, i, got, rest, now) && i < |shapes|
    ensures
      var one := Read(shapes[i], rest, now);
      && (one.None? ==> ReadAll(shapes, d, table).None?)
      && (one.Some? ==> Partway(shapes, d, table, i + 1, got + [one.value.field], one.value.rest, one.value.table))
  {
    hide Read;
    var one := Read(shapes[i], rest, now);
    assert shapes[i..][0] == shapes[i] && shapes[i..][1..] == shapes[i + 1..];
    if one.Some? {
      var more := ReadAll(shapes[i + 1..], one.value.rest, one.value.table);
      if more.Some? { assert got + ([one.value.field] + more.value.fields) == got + [one.value.field] + more.value.fields; }
    }
  }

  lemma AtEnd(shapes: seq<Shape>, d: Data, table: Table, got: seq<Field>, rest: Data, now: Table)
    requires Partway(shapes, d, table, |shapes|, got, rest, now)
    ensures ReadAll(shapes, d, table) == Some(GotAll(got, rest, now))
  {
    assert shapes[|shapes|..] == [];
    assert got + [] == got;
  }

  /** The fields a body is read as, and the body and table the reading began with. */
  datatype Plan = Plan(shapes: seq<Shape>, body: Data, table: Table) {
    ghost predicate Fails() {
      ReadAll(shapes, body, table).None?
    }

    ghost predicate On(got: seq<Field>, rest: Data, now: Table) {
      Partway(shapes, body, table, |got|, got, rest, now)
    }

    /** The field after those got so far is of this shape. */
    predicate Due(got: seq<Field>, shape: Shape) {
      |got| < |shapes| && shapes[|got|] == shape
    }
  }

  // ---- the reader -----------------------------------------------------------------------------------

  datatype Short = CleanEnd | CutShort

  class Reader {
    const frameBytes: nat
    const checksum: Checksum
    var source: Data
    var strings: Table
    var trailer: Option<Trailer>
    var done: bool

    ghost function View(): Reading
      reads this
    {
      Reading(source, strings, trailer, done)
    }

    constructor (source: Data, frameBytes: nat, checksum: Checksum)
      ensures View() == Opened(source, []) && this.frameBytes == frameBytes && this.checksum == checksum
    {
      this.source, this.frameBytes, this.checksum := source, frameBytes, checksum;
      strings, trailer, done := [], None, false;
    }

    function MaxRecordBytes(): nat {
      frameBytes + MAX_HEADER_BYTES
    }

    /** io.ReadFull: all of it, or why not. */
    method ReadFull(n: nat) returns (r: Result<Data, Short>)
      modifies `source
      ensures r.Ok? <==> n <= |old(source)|
      ensures r.Ok? ==> r.value == old(source)[..n] && source == old(source)[n..]
      ensures r.Err? ==> r.error == if old(source) == [] then CleanEnd else CutShort
    {
      if n <= |source| {
        r := Ok(source[..n]);
        source := source[n..];
      } else {
        r := Err(if source == [] then CleanEnd else CutShort);
        source := [];
      }
    }

    /** A string field: a reference into the table so far, or a new entry. */
    method String(c: Cursor) returns (v: Option<Data>)
      requires c.Valid()
      modifies c, `strings
      ensures c.Valid()
      ensures
        var spec := Read(TextShape, old(c.Rest()), old(strings));
        && (v.Some? <==> spec.Some?)
        && (v.Some? ==> spec.value.field == Text(v.value) && c.Rest() == spec.value.rest && strings == spec.value.table)
    {
      ghost var d := c.Rest();
      var code := c.Uint32();
      if code.None? { return None; }
      if code.value > 0 {
        var index := code.value - 1;
        if index >= |strings| { return None; }
        return Some(strings[index]);
      }
      var length := c.Uint32();
      if length.None? { return None; }
      assert d[4..8] == d[4..][..4] && d[8..] == d[4..][4..];
      var slice := c.Take(length.value);
      if slice.None? { return None; }
      assert d[8..8 + length.value] == d[8..][..length.value];
      strings := strings + [slice.value];
      return Some(slice.value);
    }

    method NextByte(c: Cursor, ghost plan: Plan, ghost got: seq<Field>) returns (v: Option<Byte>)
      requires c.Valid() && plan.On(got, c.Rest(), strings) && plan.Due(got, SmallShape)
      modifies c
      ensures c.Valid()
      ensures v.None? ==> plan.Fails()
      ensures v.Some? ==> plan.On(got + [Small(v.value)], c.Rest(), strings)
    {
      OneField(plan.shapes, plan.body, plan.table, |got|, got, c.Rest(), strings);
      v := c.Uint8();
    }

    method NextWord(c: Cursor, ghost plan: Plan, ghost got: seq<Field>) returns (v: Option<Uint32>)
      requires c.Valid() && plan.On(got, c.Rest(), strings) && plan.Due(got, WordShape)
      modifies c
      ensures c.Valid()
      ensures v.None? ==> plan.Fails()
      ensures v.Some? ==> plan.On(got + [Word(v.value)], c.Rest(), strings)
    {
      OneField(plan.shapes, plan.body, plan.table, |got|, got, c.Rest(), strings);
      v := c.Uint32();
    }

    method NextLong(c: Cursor, ghost plan: Plan, ghost got: seq<Field>) returns (v: Option<Uint64>)
      requires c.Valid() && plan.On(got, c.Rest(), strings) && plan.Due(got, LongShape)
      modifies c
      ensures c.Valid()
      ensures v.None? ==> plan.Fails()
      ensures v.Some? ==> plan.On(got + [Long(v.value)], c.Rest(), strings)
    {
      OneField(plan.shapes, plan.body, plan.table, |got|, got, c.Rest(), strings);
      v := c.Uint64();
    }

    method NextText(c: Cursor, ghost plan: Plan, ghost got: seq<Field>) returns (v: Option<Data>)
      requires c.Valid() && plan.On(got, c.Rest(), strings) && plan.Due(got, TextShape)
      modifies c, `strings
      ensures c.Valid()
      ensures v.None? ==> plan.Fails()
      ensures v.Some? ==> plan.On(got + [Text(v.value)], c.Rest(), strings)
    {
      OneField(plan.shapes, plan.body, plan.table, |got|, got, c.Rest(), strings);
      v := String(c);
    }

    /** The payload: its length, then itself. */
    method NextBody(c: Cursor, ghost plan: Plan, ghost got: seq<Field>) returns (v: Option<Data>)
      requires c.Valid() && plan.On(got, c.Rest(), strings) && plan.Due(got, BodyShape)
      modifies c
      ensures c.Valid()
      ensures v.None? ==> plan.Fails()
      ensures v.Some? ==> plan.On(got + [Body(v.value)], c.Rest(), strings)
    {
      hide Partway, ReadAll;
      ghost var d := c.Rest();
      OneField(plan.shapes, plan.body, plan.table, |got|, got, d, strings);
      var length := c.Uint32();
      if length.None? { return None; }
      v := c.Take(length.value);
      if v.Some? { assert d[4..4 + length.value] == d[4..][..length.value]; }
    }

    /** The fields every record has, after its kind byte. */
    method DecodeCommon(c: Cursor, kind: Byte, ghost plan: Plan) returns (common: Option<Common>)
      requires c.Valid() && |plan.shapes| >= 9 && plan.shapes[..9] == CommonShapes()
      requires plan.On([Small(kind)], c.Rest(), strings)
      modifies c, `strings
      ensures c.Valid()
      ensures common.None? ==> plan.Fails()
      ensures common.Some? ==> plan.On(common.value.Fields(kind), c.Rest(), strings)
    {
      hide Plan.On, Plan.Fails;
      assert plan.shapes[1] == LongShape && plan.shapes[2] == LongShape && plan.shapes[3] == LongShape;
      assert plan.shapes[4] == SmallShape && plan.shapes[5] == SmallShape;
      assert plan.shapes[6] == TextShape && plan.shapes[7] == TextShape && plan.shapes[8] == WordShape;
      ghost var got := [Small(kind)];
      var sequence := NextLong(c, plan, got);
      if sequence.None? { return None; }
      got := got + [Long(sequence.value)];
      var frame := NextLong(c, plan, got);
      if frame.None? { return None; }
      got := got + [Long(frame.value)];
      var elapsed := NextLong(c, plan, got);
      if elapsed.None? { return None; }
      got := got + [Long(elapsed.value)];
      var direction := NextByte(c, plan, got);
      if direction.None? { return None; }
      got := got + [Small(direction.value)];
      var flags := NextByte(c, plan, got);
      if flags.None? { return None; }
      got := got + [Small(flags.value)];
      var before := NextText(c, plan, got);
      if before.None? { return None; }
      got := got + [Text(before.value)];
      var after := NextText(c, plan, got);
      if after.None? { return None; }
      got := got + [Text(after.value)];
      var originalLen := NextWord(c, plan, got);
      if originalLen.None? { return None; }
      got := got + [Word(originalLen.value)];
      common := Some(Common(sequence.value, frame.value, elapsed.value, direction.value, flags.value,
                            before.value, after.value, originalLen.value));
      assert got == common.value.Fields(kind);
    }

    method DecodeTrailer(c: Cursor, ghost plan: Plan) returns (t: Option<Trailer>)
      requires c.Valid() && plan.shapes == TrailerShapes() && plan.On([Small(0)], c.Rest(), strings)
      modifies c, `strings
      ensures c.Valid()
      ensures t.None? ==> plan.Fails()
      ensures t.Some? ==> plan.On(TrailerFields(t.value), c.Rest(), strings)
    {
      hide Plan.On, Plan.Fails;
      ghost var got := [Small(0)];
      var records := NextLong(c, plan, got);
      if records.None? { return None; }
      got := got + [Long(records.value)];
      var last := NextLong(c, plan, got);
      if last.None? { return None; }
      got := got + [Long(last.value)];
      var digest := NextText(c, plan, got);
      if digest.None? { return None; }
      got := got + [Text(digest.value)];
      var algorithm := NextWord(c, plan, got);
      if algorithm.None? { return None; }
      got := got + [Word(algorithm.value)];
      t := Some(Trailer(records.value, last.value, digest.value, algorithm.value));
      assert got == TrailerFields(t.value);
    }

    /** What one kind of record adds to the common fields, and the payload after it. */
    method DecodeRest(c: Cursor, kind: Kind, common: Common, ghost plan: Plan) returns (record: Option<Record>)
      requires c.Valid() && kind != TrailerKind && plan.shapes == RecordShapes(kind)
      requires plan.On(common.Fields(KindByte(kind)), c.Rest(), strings)
      modifies c, `strings
      ensures c.Valid()
      ensures record.None? ==> plan.Fails()
      ensures record.Some? ==> exists fs ::
        |fs| == |RecordShapes(kind)| && plan.On(fs, c.Rest(), strings) && record.value == RecordOf(kind, fs)
    {
      hide Plan.On, Plan.Fails, RecordOf;
      ghost var got := common.Fields(KindByte(kind));
      assert |got| == 9;
      var id: Uint32 := 0;
      var name, tag, reason := [], [], [];
      if kind == PacketKind || kind == RejectedKind {
        var word := NextWord(c, plan, got);
        if word.None? { return None; }
        id := word.value;
        got := got + [Word(id)];
        var text := NextText(c, plan, got);
        if text.None? { return None; }
        name := text.value;
        got := got + [Text(name)];
      } else if kind == SecretKind {
        var text := NextText(c, plan, got);
        if text.None? { return None; }
        tag := text.value;
        got := got + [Text(tag)];
      }
      if kind == RejectedKind {
        var text := NextText(c, plan, got);
        if text.None? { return None; }
        reason := text.value;
        got := got + [Text(reason)];
      }
      var payload := NextBody(c, plan, got);
      if payload.None? { return None; }
      got := got + [Body(payload.value)];
      record := Some(Record(kind, common.sequence, common.frame, Signed64(common.elapsed), common.direction,
                            common.before, common.after, Signed32(id), name, common.flags % 2 == 1,
                            common.originalLen, payload.value, tag, reason));
      RestMakes(kind, common, id, name, tag, reason, payload.value);
      assert got == RestFields(kind, common, id, name, tag, reason, payload.value);
    }

    method DecodeRecord(c: Cursor, raw: Byte, ghost body: Data) returns (record: Option<Record>)
      requires c.Valid() && body != [] && body[0] == raw != 0 && c.Rest() == body[1..]
      modifies c, `strings
      ensures
        var spec := Decode(body, old(strings));
        && (record.Some? <==> spec.Some?)
        && (record.Some? ==> RecordEntry(record.value) == spec.value.entry && strings == spec.value.table)
    {
      hide RecordOf, RecordShapes, CommonShapes, Decode, Plan.On, Plan.Fails;
      var kind := KindOfByte(raw);
      ghost var plan := Plan(RecordShapes(if kind.Some? then kind.value else RawFrameKind), body, strings);
      StartsWithKind(if kind.Some? then kind.value else RawFrameKind);
      KindRead(plan);
      DecodeFails(plan, kind);
      var common := DecodeCommon(c, raw, plan);
      if common.None? { return None; }
      if kind.None? { return None; }
      record := DecodeRest(c, kind.value, common.value, plan);
      if record.None? { return None; }
      ghost var fs :| |fs| == |RecordShapes(kind.value)| && plan.On(fs, c.Rest(), strings) && record.value == RecordOf(kind.value, fs);
      DecodesToRecord(plan, kind.value, fs, c.Rest(), strings);
    }

    /** One body into the entry it holds, with the table it leaves. */
    method DecodeEntry(body: Data) returns (entry: Option<Entry>)
      modifies `strings
      ensures
        var spec := Decode(body, old(strings));
        && (entry.Some? <==> spec.Some?)
        && (entry.Some? ==> entry.value == spec.value.entry && strings == spec.value.table)
    {
      hide TrailerFields, TrailerShapes, Decode, Plan.On, Plan.Fails;
      DecodesNothing(body, strings);
      var c := new Cursor(body);
      var raw := c.Uint8();
      if raw.None? { return None; }
      if raw.value == KindByte(TrailerKind) {
        ghost var plan := Plan(TrailerShapes(), body, strings);
        TrailerStarts();
        KindRead(plan);
        DecodeFails(plan, Some(TrailerKind));
        var t := DecodeTrailer(c, plan);
        if t.None? { return None; }
        DecodesToTrailer(plan, t.value, c.Rest(), strings);
        return Some(TrailerEntry(t.value));
      }
      var record := DecodeRecord(c, raw.value, body);
      if record.None? { return None; }
      return Some(RecordEntry(record.value));
    }

    /** The next record, or why there is none. */
    method NextRecord() returns (outcome: Outcome)
      modifies `source, `strings, `trailer, `done
      ensures
        var (spec, expected) := Next(old(View()), frameBytes + MAX_HEADER_BYTES, checksum);
        && outcome == expected && done == spec.done && trailer == spec.trailer
        && (!done ==> source == spec.rest && strings == spec.table)
    {
      hide Decode;
      if done { return EndOfCapture; }
      var length := ReadFull(4);
      if length.Err? {
        done := true;
        return if length.error == CleanEnd then EndOfCapture else Failed(Truncated);
      }
      NumberBelow(length.value);
      var n := Number(length.value);
      if n > MaxRecordBytes() {
        done := true;
        return Failed(RecordTooLarge);
      }
      ghost var d := old(source);
      var body := ReadFull(n);
      if body.Err? {
        done := true;
        return Failed(Truncated);
      }
      assert body.value == d[4..4 + n] && source == d[4 + n..];
      var check := ReadFull(4);
      if check.Err? {
        done := true;
        return Failed(Truncated);
      }
      assert check.value == d[4 + n..8 + n] && source == d[8 + n..];
      if Number(check.value) != checksum(body.value) {
        done := true;
        return Failed(CorruptRecord);
      }
      var entry := DecodeEntry(body.value);
      if entry.None? {
        done := true;
        return Failed(CorruptRecord);
      }
      match entry.value {
        case TrailerEntry(t) =>
          trailer := Some(t);
          done := true;
          return EndOfCapture;
        case RecordEntry(record) => return Yields(record);
      }
    }
  }

  lemma StartsWithKind(kind: Kind)
    ensures |RecordShapes(kind)| >= 9 && RecordShapes(kind)[..9] == CommonShapes() && RecordShapes(kind)[0] == SmallShape
  {
  }

  lemma TrailerStarts()
    ensures |TrailerShapes()| > 0 && TrailerShapes()[0] == SmallShape
  {
  }

  lemma KindRead(plan: Plan)
    requires |plan.shapes| > 0 && plan.shapes[0] == SmallShape && plan.body != []
    ensures plan.On([Small(plan.body[0])], plan.body[1..], plan.table)
  {
    AtStart(plan.shapes, plan.body, plan.table);
    OneField(plan.shapes, plan.body, plan.table, 0, [], plan.body, plan.table);
    assert [] + [Small(plan.body[0])] == [Small(plan.body[0])];
  }

  lemma DecodesNothing(body: Data, table: Table)
    ensures body == [] ==> Decode(body, table).None?
  {
    hide ReadAll;
  }

  lemma DecodeFails(plan: Plan, kind: Option<Kind>)
    requires plan.body != [] && KindOfByte(plan.body[0]) == kind
    requires kind == Some(TrailerKind) ==> plan.shapes == TrailerShapes()
    requires kind.Some? && kind != Some(TrailerKind) ==> plan.shapes == RecordShapes(kind.value)
    ensures plan.Fails() || kind.None? ==> Decode(plan.body, plan.table).None?
  {
    hide ReadAll, RecordShapes, TrailerShapes, RecordOf;
  }

  lemma DecodesToTrailer(plan: Plan, t: Trailer, rest: Data, now: Table)
    requires plan.body != [] && KindOfByte(plan.body[0]) == Some(TrailerKind) && plan.shapes == TrailerShapes()
    requires plan.On(TrailerFields(t), rest, now)
    ensures Decode(plan.body, plan.table) == Some(Decoded(TrailerEntry(t), now))
  {
    AtEnd(plan.shapes, plan.body, plan.table, TrailerFields(t), rest, now);
    hide ReadAll;
  }

  lemma DecodesToRecord(plan: Plan, kind: Kind, fs: seq<Field>, rest: Data, now: Table)
    requires plan.body != [] && KindOfByte(plan.body[0]) == Some(kind) && kind != TrailerKind && plan.shapes == RecordShapes(kind)
    requires |fs| == |RecordShapes(kind)| && plan.On(fs, rest, now)
    ensures Decode(plan.body, plan.table) == Some(Decoded(RecordEntry(RecordOf(kind, fs)), now))
  {
    AtEnd(plan.shapes, plan.body, plan.table, fs, rest, now);
    hide ReadAll, RecordShapes, RecordOf;
  }

  ghost function RestFields(kind: Kind, common: Common, id: Uint32, name: Data, tag: Data, reason: Data, payload: Data): seq<Field> {
    common.Fields(KindByte(kind))
    + (match kind
       case PacketKind => [Word(id), Text(name)]
       case RejectedKind => [Word(id), Text(name), Text(reason)]
       case SecretKind => [Text(tag)]
       case _ => [])
    + [Body(payload)]
  }

  /** The fields read are those of the record built from them. */
  lemma RestMakes(kind: Kind, common: Common, id: Uint32, name: Data, tag: Data, reason: Data, payload: Data)
    requires kind != TrailerKind
    requires kind == PacketKind || kind == RejectedKind || (id == 0 && name == [])
    requires kind == SecretKind || tag == []
    requires kind == RejectedKind || reason == []
    ensures
      var fs := RestFields(kind, common, id, name, tag, reason, payload);
      && |fs| == |RecordShapes(kind)|
      && RecordOf(kind, fs) ==
         Record(kind, common.sequence, common.frame, Signed64(common.elapsed), common.direction,
                common.before, common.after, Signed32(id), name, common.flags % 2 == 1,
                common.originalLen, payload, tag, reason)
  {
  }

  datatype Common = Common(
    sequence: Uint64, frame: Uint64, elapsed: Uint64, direction: Byte, flags: Byte,
    before: Data, after: Data, originalLen: Uint32)
  {
    ghost function Fields(kind: Byte): seq<Field> {
      [Small(kind), Long(sequence), Long(frame), Long(elapsed), Small(direction), Small(flags),
       Text(before), Text(after), Word(originalLen)]
    }
  }
}
