/**
 What a capture file holds (capture/format.go, capture/writer.go) and what reading any
 bytes as one gives (capture/reader.go), as functions. A record is its length, its
 body and a checksum of the body. `checksum` stands for CRC-32.
 */
module CaptureFormat {
  import opened Wrappers
  import opened Bytes
  import opened CaptureFields

  type Checksum = Data -> Uint32

  const MAX_HEADER_BYTES := 0x10_0000

  // ---- observations and records -----------------------------------------------------------

  datatype Stage = RawFrame | Packet | Secret | Rejected | UnknownStage

  datatype PacketMetadata = PacketMetadata(id: Int32, name: Data)

  datatype Observation = Observation(
    stage: Stage,
    sequence: Uint64,
    frame: Uint64,
    elapsed: Int64,
    direction: Byte,
    before: Data,
    after: Data,
    packet: Option<PacketMetadata>,
    secret: Option<Data>,
    rejected: Option<Data>,
    bytes: Data,
    redacted: bool,
    originalLen: Int64)

  datatype Kind = TrailerKind | RawFrameKind | PacketKind | SecretKind | RejectedKind

  datatype Record = Record(
    kind: Kind,
    sequence: Uint64,
    frame: Uint64,
    elapsed: Int64,
    direction: Byte,
    beforeState: Data,
    state: Data,
    packetID: Int32,
    name: Data,
    redacted: bool,
    originalLen: int,
    payload: Data,
    secretLabel: Data,
    reason: Data)
  {
    /** It crossed the wire. */
    predicate Replayable() {
      kind == RawFrameKind || kind == PacketKind
    }
  }

  datatype Trailer = Trailer(records: Uint64, lastSequence: Uint64, digest: Data, algorithm: Uint32)

  datatype Error = InvalidCapture | UndisclosedSecret | RecordTooLarge | Truncated | CorruptRecord

  function KindFor(stage: Stage): Option<Kind> {
    match stage
    case RawFrame => Some(RawFrameKind)
    case Packet => Some(PacketKind)
    case Secret => Some(SecretKind)
    case Rejected => Some(RejectedKind)
    case UnknownStage => None
  }

  function KindByte(kind: Kind): Byte {
    match kind
    case TrailerKind => 0
    case RawFrameKind => 1
    case PacketKind => 2
    case SecretKind => 3
    case RejectedKind => 4
  }

  function PacketID(o: Observation): Int32 {
    if o.packet.None? then 0 else o.packet.value.id
  }

  function PacketName(o: Observation): Data {
    if o.packet.None? then [] else o.packet.value.name
  }

  function Label(o: Observation): Data {
    if o.secret.None? then [] else o.secret.value
  }

  function Reason(o: Observation): Data {
    if o.rejected.None? then [] else o.rejected.value
  }

  // ---- a record's body --------------------------------------------------------------------------

  function CommonFields(kind: Kind, o: Observation): seq<Field> {
    [Small(KindByte(kind)), Long(o.sequence), Long(o.frame), Long(Unsigned64(o.elapsed)), Small(o.direction),
     Small(if o.redacted then 1 else 0), Text(o.before), Text(o.after), Word(o.originalLen % MOD32)]
  }

  function KindFields(kind: Kind, o: Observation): seq<Field> {
    match kind
    case PacketKind => [Word(Unsigned32(PacketID(o))), Text(PacketName(o))]
    case RejectedKind => [Word(Unsigned32(PacketID(o))), Text(PacketName(o)), Text(Reason(o))]
    case SecretKind => [Text(Label(o))]
    case _ => []
  }

  function Fields(kind: Kind, o: Observation): seq<Field> {
    CommonFields(kind, o) + KindFields(kind, o) + [Body(o.bytes)]
  }

  function TrailerFields(t: Trailer): seq<Field> {
    [Small(0), Long(t.records), Long(t.lastSequence), Text(t.digest), Word(t.algorithm)]
  }

  function CommonShapes(): seq<Shape> {
    [SmallShape, LongShape, LongShape, LongShape, SmallShape, SmallShape, TextShape, TextShape, WordShape]
  }

  function KindShapes(kind: Kind): seq<Shape> {
    match kind
    case PacketKind => [WordShape, TextShape]
    case RejectedKind => [WordShape, TextShape, TextShape]
    case SecretKind => [TextShape]
    case _ => []
  }

  function RecordShapes(kind: Kind): seq<Shape> {
    CommonShapes() + KindShapes(kind) + [BodyShape]
  }

  function TrailerShapes(): seq<Shape> {
    [SmallShape, LongShape, LongShape, TextShape, WordShape]
  }

  function KindOfByte(b: Byte): Option<Kind> {
    if b == 0 then Some(TrailerKind)
    else if b == 1 then Some(RawFrameKind)
    else if b == 2 then Some(PacketKind)
    else if b == 3 then Some(SecretKind)
    else if b == 4 then Some(RejectedKind)
    else None
  }

  // ---- decoding a body ----------------------------------------------------------------------------

  datatype Entry = RecordEntry(record: Record) | TrailerEntry(trailer: Trailer)

  datatype Decoded = Decoded(entry: Entry, table: Table)

  function LongOf(f: Field): Uint64 {
    if f.Long? && f.long < MOD64 then f.long else 0
  }

  function WordOf(f: Field): Uint32 {
    if f.Word? && f.word < MOD32 then f.word else 0
  }

  function SmallOf(f: Field): Byte {
    if f.Small? then f.small else 0
  }

  function TextOf(f: Field): Data {
    if f.Text? then f.text else []
  }

  function BodyOf(f: Field): Data {
    if f.Body? then f.body else []
  }

  function RecordOf(kind: Kind, fs: seq<Field>): Record
    requires |fs| == |RecordShapes(kind)|
  {
    var named := kind == PacketKind || kind == RejectedKind;
    Record(kind, LongOf(fs[1]), LongOf(fs[2]), Signed64(LongOf(fs[3])), SmallOf(fs[4]),
           TextOf(fs[6]), TextOf(fs[7]),
           if named then Signed32(WordOf(fs[9])) else 0,
           if named then TextOf(fs[10]) else [],
           SmallOf(fs[5]) % 2 == 1,
           WordOf(fs[8]),
           BodyOf(fs[|fs| - 1]),
           if kind == SecretKind then TextOf(fs[9]) else [],
           if kind == RejectedKind then TextOf(fs[11]) else [])
  }

  lemma {:induction false} ReadAllLength(shapes: seq<Shape>, d: Data, table: Table)
    ensures ReadAll(shapes, d, table).Some? ==> |ReadAll(shapes, d, table).value.fields| == |shapes|
    decreases |shapes|
  {
    if shapes != [] {
      var first := Read(shapes[0], d, table);
      if first.Some? { ReadAllLength(shapes[1..], first.value.rest, first.value.table); }
    }
  }

  function Decode(body: Data, table: Table): Option<Decoded> {
    if body == [] then None
    else
      var kind := KindOfByte(body[0]);
      if kind.None? then None
      else if kind.value == TrailerKind then
        var got := ReadAll(TrailerShapes(), body, table);
        ReadAllLength(TrailerShapes(), body, table);
        if got.None? then None
        else
          var fs := got.value.fields;
          Some(Decoded(TrailerEntry(Trailer(LongOf(fs[1]), LongOf(fs[2]), TextOf(fs[3]), WordOf(fs[4]))), got.value.table))
      else
        var got := ReadAll(RecordShapes(kind.value), body, table);
        ReadAllLength(RecordShapes(kind.value), body, table);
        if got.None? then None
        else Some(Decoded(RecordEntry(RecordOf(kind.value, got.value.fields)), got.value.table))
  }

  /** The record a reader returns for an observation. What a kind does not carry is left at its zero value. */
  function Recorded(o: Observation): Record
    requires o.stage != UnknownStage
  {
    var kind := KindFor(o.stage).value;
    var named := kind == PacketKind || kind == RejectedKind;
    Record(kind, o.sequence, o.frame, o.elapsed, o.direction, o.before, o.after,
           if named then PacketID(o) else 0,
           if named then PacketName(o) else [],
           o.redacted, o.originalLen % MOD32, o.bytes,
           if kind == SecretKind then Label(o) else [],
           if kind == RejectedKind then Reason(o) else [])
  }

  function ObservationBody(o: Observation, table: Table): Data
    requires o.stage != UnknownStage
  {
    WrittenAll(Fields(KindFor(o.stage).value, o), table)
  }

  function ObservationTable(o: Observation, table: Table): Table
    requires o.stage != UnknownStage
  {
    ExtendedAll(table, Fields(KindFor(o.stage).value, o))
  }

  function TrailerBody(t: Trailer, table: Table): Data {
    WrittenAll(TrailerFields(t), table)
  }

  // ---- a body written is the body read -----------------------------------------------------------------

  lemma FirstByte(fs: seq<Field>, table: Table)
    requires fs != [] && fs[0].Small?
    ensures WrittenAll(fs, table) != [] && WrittenAll(fs, table)[0] == fs[0].small
  {
    WrittenFirst(fs, table);
  }

  lemma FieldsMake(o: Observation)
    requires o.stage != UnknownStage
    ensures
      var kind := KindFor(o.stage).value;
      var fs := Fields(kind, o);
      && |fs| == |RecordShapes(kind)| && RecordOf(kind, fs) == Recorded(o)
      && fs != [] && fs[0] == Small(KindByte(kind))
  {
  }

  lemma FieldShapes(kind: Kind, o: Observation)
    requires kind != TrailerKind
    ensures Shapes(Fields(kind, o)) == RecordShapes(kind)
  {
  }

  lemma DecodesObservation(o: Observation, table: Table)
    requires o.stage != UnknownStage && Distinct(table) && AllInRange(Fields(KindFor(o.stage).value, o), table)
    ensures Decode(ObservationBody(o, table), table) == Some(Decoded(RecordEntry(Recorded(o)), ObservationTable(o, table)))
  {
    hide WrittenAll, ExtendedAll, AllInRange, ReadAll, Fields, RecordOf, RecordShapes, Recorded;
    var kind := KindFor(o.stage).value;
    var fs := Fields(kind, o);
    var body := WrittenAll(fs, table);
    FieldsMake(o);
    FieldShapes(kind, o);
    FirstByte(fs, table);
    ReadsAllWritten(fs, [], table);
    assert body + [] == body;
  }

  lemma DecodesTrailer(t: Trailer, table: Table)
    requires Distinct(table) && AllInRange(TrailerFields(t), table)
    ensures Decode(TrailerBody(t, table), table) == Some(Decoded(TrailerEntry(t), ExtendedAll(table, TrailerFields(t))))
  {
    hide WrittenAll, ExtendedAll, AllInRange, ReadAll;
    var fs := TrailerFields(t);
    FirstByte(fs, table);
    ReadsAllWritten(fs, [], table);
    assert WrittenAll(fs, table) + [] == WrittenAll(fs, table);
    assert Shapes(fs) == TrailerShapes();
  }
}
