/**
 The capture writer (capture/writer.go), proved against the file it is to write. The
 JSON header before the records is no part of `sink` here, and writing to the sink
 does not fail.
 */
module CaptureWriter {
  import opened Wrappers
  import opened Bytes
  import opened CaptureFields
  import opened CaptureFormat
  import opened CaptureTheorems
  import opened CaptureDigest

  // ---- the writer's string map ---------------------------------------------------------------

  /** The map gives each string its place in the table. */
  ghost predicate Indexes(strings: map<Data, nat>, table: Table) {
    && Distinct(table) && |strings| == |table|
    && (forall i :: 0 <= i < |table| ==> table[i] in strings && strings[table[i]] == i)
    && (forall t :: t in strings ==> t in table)
  }

  lemma IndexesMore(strings: map<Data, nat>, table: Table, text: Data)
    requires Indexes(strings, table) && text !in strings
    ensures Indexes(strings[text := |strings|], table + [text])
  {
    assert |strings[text := |strings|]| == |strings| + 1;
  }

  lemma IndexIsPlace(strings: map<Data, nat>, table: Table, text: Data)
    requires Indexes(strings, table)
    ensures text in strings <==> text in table
    ensures text in table ==> strings[text] == Place(table, text)
  {
  }

  // ---- growing bodies and files ------------------------------------------------------------------

  lemma Pushed(fs: seq<Field>, f: Field, table: Table)
    ensures WrittenAll(fs + [f], table) == WrittenAll(fs, table) + Written(f, ExtendedAll(table, fs))
    ensures ExtendedAll(table, fs + [f]) == Extended(ExtendedAll(table, fs), f)
  {
    assert (fs + [f])[..|fs|] == fs;
  }

  lemma OneRecord(os: seq<Observation>, o: Observation, table: Table, checksum: Checksum)
    requires os == [o] && o.stage != UnknownStage
    ensures Known(os) && File(os, table, checksum) == Framed(ObservationBody(o, table), checksum)
    ensures FileTable(os, table) == ObservationTable(o, table)
  {
    hide Framed, ObservationBody, ObservationTable;
    assert os[1..] == [] && Known([]);
    assert File([], ObservationTable(o, table), checksum) == [];
  }

  lemma {:induction false} FileAppend(os: seq<Observation>, o: Observation, table: Table, checksum: Checksum)
    requires Known(os) && o.stage != UnknownStage
    ensures Known(os + [o])
    ensures File(os + [o], table, checksum)
         == File(os, table, checksum) + Framed(ObservationBody(o, FileTable(os, table)), checksum)
    ensures FileTable(os + [o], table) == ObservationTable(o, FileTable(os, table))
    decreases |os|
  {
    hide Framed, ObservationBody, ObservationTable;
    if os == [] {
      assert os + [o] == [o];
      OneRecord([o], o, table, checksum);
    } else {
      assert (os + [o])[1..] == os[1..] + [o] && (os + [o])[0] == os[0];
      FileAppend(os[1..], o, ObservationTable(os[0], table), checksum);
    }
  }

  // ---- what enters the digest ------------------------------------------------------------------------

  /** The record the writer digests: its own packet ID even where the file carries none. */
  function Digested(o: Observation): Record
    requires o.stage != UnknownStage
  {
    Record(KindFor(o.stage).value, o.sequence, 0, 0, o.direction, [], o.after, PacketID(o), [], false, 0, o.bytes, [], [])
  }

  function DigestedAll(os: seq<Observation>): (rs: seq<Record>)
    requires Known(os)
    ensures |rs| == |os|
    ensures forall i :: 0 <= i < |os| ==> rs[i] == Digested(os[i])
  {
    seq(|os|, i requires 0 <= i < |os| => Digested(os[i]))
  }

  /** The trailer that closes a capture of these observations. */
  function TrailerFor(os: seq<Observation>, hash: Hash, finish: Hash): Trailer
    requires Known(os)
  {
    Trailer(Counter(|os|), if os == [] then 0 else os[|os| - 1].sequence,
            finish(Transcript(DigestedAll(os), hash)), DIGEST_VERSION)
  }

  /** What a trailer says of a capture: how many records, the last one's sequence, and how its digest was made. */
  predicate Totals(t: Trailer, os: seq<Observation>) {
    && t.records == |os| % 0x1_0000_0000_0000_0000
    && t.lastSequence == (if os == [] then 0 else os[|os| - 1].sequence)
    && t.algorithm == 1
  }

  /** A 64-bit counter of a list's length. */
  function Counter(n: nat): Uint64 {
    n % MOD64
  }

  function Increment(c: Uint64): Uint64 {
    if c == MOD64 - 1 then 0 else c + 1
  }

  lemma CounterIs(n: nat)
    ensures Counter(n) == n % 0x1_0000_0000_0000_0000
  {
  }

  lemma CounterStep(n: nat)
    ensures Increment(Counter(n)) == Counter(n + 1)
  {
    var q := n / MOD64;
    assert n == q * MOD64 + Counter(n);
    if Counter(n) == MOD64 - 1 {
      assert n + 1 == (q + 1) * MOD64;
    } else {
      assert n + 1 == q * MOD64 + (Counter(n) + 1);
    }
  }

  // ---- the writer ---------------------------------------------------------------------------------------

  class Writer {
    const frameBytes: nat
    const disclosing: bool
    const checksum: Checksum
    const digest: Digester
    /** Everything written after the header. */
    var sink: Data
    var strings: map<Data, nat>
    var records: Uint64
    var last: Uint64
    var closed: bool
    ghost var table: Table
    ghost var observed: seq<Observation>

    ghost predicate Valid()
      reads this, digest
    {
      && digest.Valid() && Known(observed)
      && Indexes(strings, table)
      && digest.Valid() && Lines(digest.added, digest.hash) == Lines(DigestedAll(observed), digest.hash)
      && records == Counter(|observed|)
      && last == (if observed == [] then 0 else observed[|observed| - 1].sequence)
      && (!closed ==> sink == File(observed, [], checksum) && table == FileTable(observed, []))
      && (closed ==>
            sink == File(observed, [], checksum)
              + Framed(TrailerBody(TrailerFor(observed, digest.hash, digest.finish), FileTable(observed, [])), checksum))
    }

    constructor (frameBytes: nat, disclosing: bool, checksum: Checksum, hash: Hash, finish: Hash)
      ensures Valid() && observed == [] && !closed && sink == []
      ensures this.frameBytes == frameBytes && this.disclosing == disclosing && this.checksum == checksum
      ensures fresh(digest) && digest.hash == hash && digest.finish == finish
    {
      this.frameBytes, this.disclosing, this.checksum := frameBytes, disclosing, checksum;
      digest := new Digester(hash, finish);
      sink, strings, records, last, closed := [], map[], 0, 0, false;
      table, observed := [], [];
    }

    /** A string's definition, or a reference to an earlier one. */
    method AppendString(body: Data, value: Data) returns (more: Data)
      requires Indexes(strings, table)
      modifies `strings, `table
      ensures Indexes(strings, table)
      ensures more == body + Written(Text(value), old(table))
      ensures table == Extended(old(table), Text(value))
    {
      hide BigEndian;
      IndexIsPlace(strings, table, value);
      if value in strings {
        more := body + BigEndian(4, strings[value] + 1);
      } else {
        IndexesMore(strings, table, value);
        strings := strings[value := |strings|];
        table := table + [value];
        more := body + BigEndian(4, 0);
        more := more + BigEndian(4, |value|);
        more := more + value;
        assert more == body + (BigEndian(4, 0) + BigEndian(4, |value|) + value);
      }
    }

    /** Fields every kind of record begins with. */
    method BuildCommon(kind: Kind, o: Observation) returns (body: Data)
      requires Indexes(strings, table)
      modifies `strings, `table
      ensures Indexes(strings, table)
      ensures body == WrittenAll(CommonFields(kind, o), old(table))
      ensures table == ExtendedAll(old(table), CommonFields(kind, o))
    {
      hide BigEndian, WrittenAll, ExtendedAll, Indexes;
      ghost var before := table;
      ghost var fs := CommonFields(kind, o);
      StartOf(before);
      Pushed([], fs[0], before);
      body := [] + [KindByte(kind)];
      assert [] + [fs[0]] == fs[..1];
      Pushed(fs[..1], fs[1], before);
      body := body + BigEndian(8, o.sequence);
      assert fs[..1] + [fs[1]] == fs[..2];
      Pushed(fs[..2], fs[2], before);
      body := body + BigEndian(8, o.frame);
      assert fs[..2] + [fs[2]] == fs[..3];
      Pushed(fs[..3], fs[3], before);
      body := body + BigEndian(8, Unsigned64(o.elapsed));
      assert fs[..3] + [fs[3]] == fs[..4];
      Pushed(fs[..4], fs[4], before);
      body := body + [o.direction];
      assert fs[..4] + [fs[4]] == fs[..5];
      Pushed(fs[..5], fs[5], before);
      var flags: Byte := 0;
      if o.redacted { flags := 1; }
      body := body + [flags];
      assert fs[..5] + [fs[5]] == fs[..6];
      Pushed(fs[..6], fs[6], before);
      body := AppendString(body, o.before);
      assert fs[..6] + [fs[6]] == fs[..7];
      Pushed(fs[..7], fs[7], before);
      body := AppendString(body, o.after);
      assert fs[..7] + [fs[7]] == fs[..8];
      Pushed(fs[..8], fs[8], before);
      body := body + BigEndian(4, o.originalLen % MOD32);
      assert fs[..8] + [fs[8]] == fs;
    }

    method BuildRecord(kind: Kind, o: Observation) returns (body: Data)
      requires Indexes(strings, table)
      modifies `strings, `table
      ensures Indexes(strings, table)
      ensures body == WrittenAll(Fields(kind, o), old(table))
      ensures table == ExtendedAll(old(table), Fields(kind, o))
    {
      hide BigEndian, WrittenAll, ExtendedAll, Indexes, CommonFields;
      ghost var before := table;
      ghost var fs := CommonFields(kind, o);
      body := BuildCommon(kind, o);
      if kind == PacketKind || kind == RejectedKind {
        Pushed(fs, Word(Unsigned32(PacketID(o))), before);
        body := body + BigEndian(4, Unsigned32(PacketID(o)));
        fs := fs + [Word(Unsigned32(PacketID(o)))];
        Pushed(fs, Text(PacketName(o)), before);
        body := AppendString(body, PacketName(o));
        fs := fs + [Text(PacketName(o))];
      } else if kind == SecretKind {
        Pushed(fs, Text(Label(o)), before);
        body := AppendString(body, Label(o));
        fs := fs + [Text(Label(o))];
      }
      if kind == RejectedKind {
        Pushed(fs, Text(Reason(o)), before);
        body := AppendString(body, Reason(o));
        fs := fs + [Text(Reason(o))];
      }
      assert fs == CommonFields(kind, o) + KindFields(kind, o);
      Pushed(fs, Body(o.bytes), before);
      body := body + BigEndian(4, |o.bytes|);
      body := body + o.bytes;
    }

    /** Length, body, checksum. */
    method WriteRecord(body: Data)
      modifies `sink
      ensures sink == old(sink) + Framed(body, checksum)
    {
      sink := sink + BigEndian(4, |body|);
      sink := sink + body;
      sink := sink + BigEndian(4, checksum(body));
      assert sink == old(sink) + Framed(body, checksum);
    }

    /** Build the record, write it, count it, and digest it if it crossed the wire. */
    method Keep(kind: Kind, o: Observation)
      requires Valid() && !closed && o.stage != UnknownStage && KindFor(o.stage) == Some(kind)
      modifies this, digest
      ensures Valid() && !closed && observed == old(observed) + [o]
    {
      hide Framed, WrittenAll, ExtendedAll, Indexes, Fields, Line, Lines, File, FileTable, DigestedAll, TrailerBody, TrailerFor;
      hide Known, Transcript, BigEndian, Counter, Increment;
      FileAppend(observed, o, [], checksum);
      Extends(observed, o, digest.added, digest.hash);
      CounterStep(|observed|);
      var body := BuildRecord(kind, o);
      WriteRecord(body);
      records := Increment(records);
      last := o.sequence;
      if kind == RawFrameKind || kind == PacketKind {
        digest.Add(Digested(o));
      }
      observed := observed + [o];
    }

    /** Every refusal comes before the first byte. */
    method Observe(o: Observation) returns (refused: Option<Error>)
      requires Valid()
      modifies this, digest
      ensures Valid() && closed == old(closed)
      ensures refused ==
        if old(closed) || o.stage == UnknownStage then Some(InvalidCapture)
        else if o.stage == Secret && !o.redacted && !disclosing then Some(UndisclosedSecret)
        else if |o.bytes| > frameBytes then Some(RecordTooLarge)
        else None
      ensures observed == old(observed) + if refused.None? then [o] else []
      ensures refused.Some? ==> sink == old(sink)
    {
      if closed { return Some(InvalidCapture); }
      var kind := KindFor(o.stage);
      if kind.None? { return Some(InvalidCapture); }
      if kind.value == SecretKind && !o.redacted && !disclosing { return Some(UndisclosedSecret); }
      if |o.bytes| > frameBytes { return Some(RecordTooLarge); }
      Keep(kind.value, o);
      return None;
    }

    method BuildTrailer(t: Trailer) returns (body: Data)
      requires Indexes(strings, table)
      modifies `strings, `table
      ensures Indexes(strings, table) && body == TrailerBody(t, old(table))
    {
      hide BigEndian, WrittenAll, ExtendedAll, Indexes;
      ghost var before := table;
      ghost var fs := TrailerFields(t);
      StartOf(before);
      Pushed([], fs[0], before);
      body := [] + [KindByte(TrailerKind)];
      assert [] + [fs[0]] == fs[..1];
      Pushed(fs[..1], fs[1], before);
      body := body + BigEndian(8, t.records);
      assert fs[..1] + [fs[1]] == fs[..2];
      Pushed(fs[..2], fs[2], before);
      body := body + BigEndian(8, t.lastSequence);
      assert fs[..2] + [fs[2]] == fs[..3];
      Pushed(fs[..3], fs[3], before);
      body := AppendString(body, t.digest);
      assert fs[..3] + [fs[3]] == fs[..4];
      Pushed(fs[..4], fs[4], before);
      body := body + BigEndian(4, t.algorithm);
      assert fs[..4] + [fs[4]] == fs;
    }

    /** The trailer, once. */
    method Close()
      requires Valid()
      modifies this
      ensures Valid() && closed && observed == old(observed)
      ensures old(closed) ==> sink == old(sink)
      ensures !old(closed) ==> exists t ::
        && sink == old(sink) + Framed(TrailerBody(t, old(table)), checksum)
        && Totals(t, observed) && t.digest == digest.finish(Transcript(digest.added, digest.hash))
    {
      hide BigEndian, WrittenAll, ExtendedAll, Indexes, Framed, File, FileTable, Lines, DigestedAll, TrailerBody, Counter, Known;
      if closed { return; }
      closed := true;
      var sum := digest.Sum();
      var t := Trailer(records, last, sum, DIGEST_VERSION);
      assert Totals(t, observed) by { CounterIs(|observed|); }
      var body := BuildTrailer(t);
      WriteRecord(body);
    }
  }

  // ---- what a reader gets from it -------------------------------------------------------------------

  /** A capture the writer closed reads back as what it observed, with a trailer that counts it. */
  lemma WriterRoundTrip(os: seq<Observation>, limit: nat, checksum: Checksum, hash: Hash, finish: Hash)
    requires Known(os) && AllAdmissible(os, [], limit)
    requires AdmissibleTrailer(TrailerFor(os, hash, finish), FileTable(os, []), limit)
    ensures
      var t := TrailerFor(os, hash, finish);
      All(Opened(File(os, [], checksum) + Framed(TrailerBody(t, FileTable(os, [])), checksum), []), limit, checksum)
        == ReadOut(RecordedAll(os), EndOfCapture, Some(t))
      && Totals(t, os) && t.digest == finish(Transcript(DigestedAll(os), hash))
  {
    hide File, Framed, AllAdmissible, AdmissibleTrailer, FileTable;
    ReadsClosedCapture(os, TrailerFor(os, hash, finish), limit, checksum);
  }

  // ---- the digest of a replay ---------------------------------------------------------------------------

  /** A raw record as the stream makes it: without packet metadata, or with an ID of zero. */
  predicate Unnamed(os: seq<Observation>) {
    forall i :: 0 <= i < |os| && os[i].stage == RawFrame && os[i].packet.Some? ==> os[i].packet.value.id == 0
  }

  /**
   The digest of the records a reader returns covers what the writer digested exactly
   when no raw record carries a packet ID, since the file has no place for one.
   */
  lemma {:induction false} DigestAgrees(os: seq<Observation>, hash: Hash)
    requires Known(os)
    ensures Summaries(RecordedAll(os), hash) == Summaries(DigestedAll(os), hash) <==> Unnamed(os)
    decreases |os|
  {
    if os != [] {
      assert RecordedAll(os)[1..] == RecordedAll(os[1..]) && DigestedAll(os)[1..] == DigestedAll(os[1..]);
      DigestAgrees(os[1..], hash);
      var r, d := RecordedAll(os), DigestedAll(os);
      if os[0].stage == RawFrame || os[0].stage == Packet {
        assert Summaries(r, hash) == [SummaryOf(r[0], hash)] + Summaries(r[1..], hash);
        assert Summaries(d, hash) == [SummaryOf(d[0], hash)] + Summaries(d[1..], hash);
        assert Summaries(r, hash) == Summaries(d, hash) <==>
          SummaryOf(r[0], hash) == SummaryOf(d[0], hash) && Summaries(r[1..], hash) == Summaries(d[1..], hash) by {
          assert Summaries(r, hash)[0] == SummaryOf(r[0], hash) && Summaries(d, hash)[0] == SummaryOf(d[0], hash);
          assert Summaries(r, hash)[1..] == Summaries(r[1..], hash) && Summaries(d, hash)[1..] == Summaries(d[1..], hash);
        }
      } else {
        assert Summaries(r, hash) == Summaries(r[1..], hash) && Summaries(d, hash) == Summaries(d[1..], hash);
      }
      UnnamedFirst(os);
    }
  }

  lemma UnnamedFirst(os: seq<Observation>)
    requires os != []
    ensures Unnamed(os) <==> (os[0].stage == RawFrame ==> PacketID(os[0]) == 0) && Unnamed(os[1..])
  {
    if (os[0].stage == RawFrame ==> PacketID(os[0]) == 0) && Unnamed(os[1..]) {
      forall i | 0 <= i < |os| && os[i].stage == RawFrame ensures PacketID(os[i]) == 0 {
        if i > 0 { assert os[i] == os[1..][i - 1]; }
      }
    }
    if Unnamed(os) {
      forall i | 0 <= i < |os[1..]| && os[1..][i].stage == RawFrame ensures PacketID(os[1..][i]) == 0 {
        assert os[1..][i] == os[i + 1];
      }
    }
  }

  lemma StartOf(table: Table)
    ensures WrittenAll([], table) == [] && ExtendedAll(table, []) == table
  {
  }

  /** What the digest has been fed stays what the observations call for. */
  lemma Extends(os: seq<Observation>, o: Observation, added: seq<Record>, hash: Hash)
    requires Known(os) && o.stage != UnknownStage && Lines(added, hash) == Lines(DigestedAll(os), hash)
    ensures Known(os + [o])
    ensures Lines(added + [Digested(o)], hash) == Lines(DigestedAll(os + [o]), hash)
    ensures !Digested(o).Replayable() ==> Lines(added, hash) == Lines(DigestedAll(os + [o]), hash)
  {
    hide Line;
    assert DigestedAll(os + [o]) == DigestedAll(os) + [Digested(o)];
    LinesAppend(added, [Digested(o)], hash);
    LinesAppend(DigestedAll(os), [Digested(o)], hash);
    assert [Digested(o)][1..] == [];
  }
}
