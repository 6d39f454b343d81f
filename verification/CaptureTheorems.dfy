/**
 A capture written is a capture read (capture/writer.go, capture/reader.go): the whole
 file gives back every record and the trailer, and every prefix of it gives back the
 records that lie wholly inside, then a clean end or a truncation, never anything else.
 */
module CaptureTheorems {
  import opened Wrappers
  import opened Bytes
  import opened CaptureFields
  import opened CaptureFormat

  // ---- framing -------------------------------------------------------------------------------

  function Framed(body: Data, checksum: Checksum): Data {
    BigEndian(4, |body|) + body + BigEndian(4, checksum(body))
  }

  // ---- reading --------------------------------------------------------------------------------

  datatype Reading = Reading(rest: Data, table: Table, trailer: Option<Trailer>, done: bool)

  datatype Outcome = Yields(record: Record) | EndOfCapture | Failed(error: Error)

  /** One call of the reader's Next. `limit` bounds a record's body. */
  function Next(r: Reading, limit: nat, checksum: Checksum): (Reading, Outcome) {
    var over := r.(done := true);
    if r.done then (r, EndOfCapture)
    else if r.rest == [] then (over, EndOfCapture)
    else if |r.rest| < 4 then (over, Failed(Truncated))
    else
      var length := Number(r.rest[..4]);
      if length > limit then (over, Failed(RecordTooLarge))
      else if |r.rest| < 4 + length then (over, Failed(Truncated))
      else if |r.rest| < 8 + length then (over, Failed(Truncated))
      else
        var body := r.rest[4..4 + length];
        if Number(r.rest[4 + length..8 + length]) != checksum(body) then (over, Failed(CorruptRecord))
        else
          var decoded := Decode(body, r.table);
          if decoded.None? then (over, Failed(CorruptRecord))
          else
            var next := r.(rest := r.rest[8 + length..], table := decoded.value.table);
            match decoded.value.entry
            case RecordEntry(record) => (next, Yields(record))
            case TrailerEntry(t) => (next.(trailer := Some(t), done := true), EndOfCapture)
  }

  lemma YieldsConsumes(r: Reading, limit: nat, checksum: Checksum)
    requires Next(r, limit, checksum).1.Yields?
    ensures |Next(r, limit, checksum).0.rest| < |r.rest|
  {
    hide Decode, Number;
  }

  datatype ReadOut = ReadOut(records: seq<Record>, outcome: Outcome, trailer: Option<Trailer>)

  /** Reading until the first call that yields no record. */
  function All(r: Reading, limit: nat, checksum: Checksum): ReadOut
    decreases |r.rest|
  {
    var (next, outcome) := Next(r, limit, checksum);
    if !outcome.Yields? then ReadOut([], outcome, next.trailer)
    else
      YieldsConsumes(r, limit, checksum);
      var more := All(next, limit, checksum);
      more.(records := [outcome.record] + more.records)
  }

  function Opened(d: Data, table: Table): Reading {
    Reading(d, table, None, false)
  }

  // ---- what the writer wrote ---------------------------------------------------------------------

  predicate Known(os: seq<Observation>) {
    forall i :: 0 <= i < |os| ==> os[i].stage != UnknownStage
  }

  /** The records of a run of observations, each after the one before. */
  function File(os: seq<Observation>, table: Table, checksum: Checksum): Data
    requires Known(os)
    decreases |os|
  {
    if os == [] then []
    else Framed(ObservationBody(os[0], table), checksum) + File(os[1..], ObservationTable(os[0], table), checksum)
  }

  function FileTable(os: seq<Observation>, table: Table): Table
    requires Known(os)
    decreases |os|
  {
    if os == [] then table else FileTable(os[1..], ObservationTable(os[0], table))
  }

  function RecordedAll(os: seq<Observation>): (rs: seq<Record>)
    requires Known(os)
    ensures |rs| == |os|
    ensures forall i :: 0 <= i < |os| ==> rs[i] == Recorded(os[i])
  {
    seq(|os|, i requires 0 <= i < |os| => Recorded(os[i]))
  }

  /** A record the reader's own bound admits, with every length in four bytes. */
  predicate Admissible(o: Observation, table: Table, limit: nat)
    requires o.stage != UnknownStage
  {
    && AllInRange(Fields(KindFor(o.stage).value, o), table)
    && |ObservationBody(o, table)| <= limit && |ObservationBody(o, table)| < MOD32
  }

  predicate AllAdmissible(os: seq<Observation>, table: Table, limit: nat)
    requires Known(os)
    decreases |os|
  {
    os == [] || (Admissible(os[0], table, limit) && AllAdmissible(os[1..], ObservationTable(os[0], table), limit))
  }

  predicate AdmissibleTrailer(t: Trailer, table: Table, limit: nat) {
    && AllInRange(TrailerFields(t), table)
    && |TrailerBody(t, table)| <= limit && |TrailerBody(t, table)| < MOD32
  }

  // ---- one record ------------------------------------------------------------------------------------

  lemma FramedParts(body: Data, rest: Data, checksum: Checksum)
    requires |body| < MOD32
    ensures
      var d := Framed(body, checksum) + rest;
      && |d| >= 8 + |body| && |Framed(body, checksum)| == 8 + |body|
      && Number(d[..4]) == |body| && d[4..4 + |body|] == body
      && Number(d[4 + |body|..8 + |body|]) == checksum(body)
      && d[8 + |body|..] == rest
  {
    hide BigEndian, Number;
    NumberOf32(|body|);
    NumberOf32(checksum(body));
    var d := Framed(body, checksum) + rest;
    assert d[..4] == BigEndian(4, |body|);
    assert d[4 + |body|..8 + |body|] == BigEndian(4, checksum(body));
  }

  lemma YieldsObservation(o: Observation, table: Table, rest: Data, limit: nat, checksum: Checksum)
    requires o.stage != UnknownStage && Distinct(table) && Admissible(o, table, limit)
    ensures Next(Opened(Framed(ObservationBody(o, table), checksum) + rest, table), limit, checksum)
      == (Opened(rest, ObservationTable(o, table)), Yields(Recorded(o)))
    ensures Distinct(ObservationTable(o, table))
  {
    hide Framed, Decode, Recorded, Number, ExtendedAll, Distinct, AllInRange, WrittenAll, Fields;
    FramedParts(ObservationBody(o, table), rest, checksum);
    DecodesObservation(o, table);
    StaysDistinct(table, Fields(KindFor(o.stage).value, o));
  }

  lemma EndsAtTrailer(t: Trailer, table: Table, limit: nat, checksum: Checksum)
    requires Distinct(table) && AdmissibleTrailer(t, table, limit)
    ensures
      var (next, outcome) := Next(Opened(Framed(TrailerBody(t, table), checksum), table), limit, checksum);
      outcome == EndOfCapture && next.trailer == Some(t)
  {
    hide Framed, Decode, Number, ExtendedAll, Distinct, AllInRange, WrittenAll, TrailerFields;
    FramedParts(TrailerBody(t, table), [], checksum);
    assert Framed(TrailerBody(t, table), checksum) + [] == Framed(TrailerBody(t, table), checksum);
    DecodesTrailer(t, table);
  }

  /** A record cut anywhere inside is a truncation; cut before its first byte it is a clean end. */
  lemma CutRecord(body: Data, n: nat, table: Table, limit: nat, checksum: Checksum)
    requires |body| < MOD32 && |body| <= limit && n < 8 + |body|
    ensures |Framed(body, checksum)| == 8 + |body|
    ensures
      var (next, outcome) := Next(Opened(Framed(body, checksum)[..n], table), limit, checksum);
      outcome == (if n == 0 then EndOfCapture else Failed(Truncated)) && next.trailer.None?
  {
    hide Decode, Number, BigEndian;
    FramedParts(body, [], checksum);
    var d := Framed(body, checksum);
    assert d + [] == d;
    if n >= 4 { assert d[..n][..4] == d[..4]; }
  }

  /**
   The writer accepts a record by its payload alone; the reader refuses one by its whole
   body. So a record the writer accepts is readable exactly when the reader's bound admits it.
   */
  lemma ReadableExactly(o: Observation, table: Table, rest: Data, limit: nat, checksum: Checksum)
    requires o.stage != UnknownStage && Distinct(table)
    requires AllInRange(Fields(KindFor(o.stage).value, o), table) && |ObservationBody(o, table)| < MOD32
    ensures
      var outcome := Next(Opened(Framed(ObservationBody(o, table), checksum) + rest, table), limit, checksum).1;
      && (outcome == Yields(Recorded(o)) <==> |ObservationBody(o, table)| <= limit)
      && (outcome == Failed(RecordTooLarge) <==> |ObservationBody(o, table)| > limit)
  {
    hide Framed, Decode, Recorded, Number, ExtendedAll, Distinct, AllInRange, WrittenAll, Fields;
    FramedParts(ObservationBody(o, table), rest, checksum);
    if |ObservationBody(o, table)| <= limit { YieldsObservation(o, table, rest, limit, checksum); }
  }

  // ---- the whole file ------------------------------------------------------------------------------------

  lemma AllStep(r: Reading, next: Reading, record: Record, limit: nat, checksum: Checksum)
    requires Next(r, limit, checksum) == (next, Yields(record))
    ensures
      var more := All(next, limit, checksum);
      All(r, limit, checksum) == more.(records := [record] + more.records)
  {
    hide Next;
  }

  /** Reading runs through the observations' records and goes on with whatever follows them. */
  lemma {:induction false} ReadsFile(os: seq<Observation>, table: Table, rest: Data, limit: nat, checksum: Checksum)
    requires Known(os) && Distinct(table) && AllAdmissible(os, table, limit)
    ensures Distinct(FileTable(os, table))
    ensures
      var after := All(Opened(rest, FileTable(os, table)), limit, checksum);
      All(Opened(File(os, table, checksum) + rest, table), limit, checksum) == after.(records := RecordedAll(os) + after.records)
    decreases |os|
  {
    hide Framed, Next, Recorded, ObservationBody, ObservationTable, Distinct, Admissible, All;
    var after := All(Opened(rest, FileTable(os, table)), limit, checksum);
    if os == [] {
      assert File(os, table, checksum) + rest == rest && RecordedAll(os) + after.records == after.records;
    } else {
      var next := ObservationTable(os[0], table);
      var first := Framed(ObservationBody(os[0], table), checksum);
      var more := File(os[1..], next, checksum) + rest;
      assert File(os, table, checksum) + rest == first + more;
      YieldsObservation(os[0], table, more, limit, checksum);
      AllStep(Opened(first + more, table), Opened(more, next), Recorded(os[0]), limit, checksum);
      ReadsFile(os[1..], next, rest, limit, checksum);
      assert RecordedAll(os) == [Recorded(os[0])] + RecordedAll(os[1..]);
      assert [Recorded(os[0])] + (RecordedAll(os[1..]) + after.records) == RecordedAll(os) + after.records;
    }
  }

  /** A closed capture reads back as its observations, in order, and then its trailer. */
  lemma ReadsClosedCapture(os: seq<Observation>, t: Trailer, limit: nat, checksum: Checksum)
    requires Known(os) && AllAdmissible(os, [], limit) && AdmissibleTrailer(t, FileTable(os, []), limit)
    ensures All(Opened(File(os, [], checksum) + Framed(TrailerBody(t, FileTable(os, [])), checksum), []), limit, checksum)
      == ReadOut(RecordedAll(os), EndOfCapture, Some(t))
  {
    hide Framed, Next, File, AllAdmissible, AdmissibleTrailer, FileTable, TrailerBody;
    var trailer := Framed(TrailerBody(t, FileTable(os, [])), checksum);
    ReadsFile(os, [], trailer, limit, checksum);
    EndsAtTrailer(t, FileTable(os, []), limit, checksum);
    assert RecordedAll(os) + [] == RecordedAll(os);
  }

  /** A capture that was never closed reads back too, and says that it is not complete. */
  lemma ReadsOpenCapture(os: seq<Observation>, limit: nat, checksum: Checksum)
    requires Known(os) && AllAdmissible(os, [], limit)
    ensures All(Opened(File(os, [], checksum), []), limit, checksum) == ReadOut(RecordedAll(os), EndOfCapture, None)
  {
    hide Framed, File, AllAdmissible, FileTable;
    ReadsFile(os, [], [], limit, checksum);
    assert File(os, [], checksum) + [] == File(os, [], checksum);
    assert RecordedAll(os) + [] == RecordedAll(os);
  }

  // ---- every prefix ---------------------------------------------------------------------------------------

  function RecordBytes(o: Observation, table: Table): nat
    requires o.stage != UnknownStage
  {
    8 + |ObservationBody(o, table)|
  }

  /** How many whole records the first n bytes hold. */
  function Whole(os: seq<Observation>, table: Table, n: nat): (k: nat)
    requires Known(os)
    ensures k <= |os|
    decreases |os|
  {
    if os == [] || n < RecordBytes(os[0], table) then 0
    else 1 + Whole(os[1..], ObservationTable(os[0], table), n - RecordBytes(os[0], table))
  }

  /** How many bytes of the first n lie after the last whole record. */
  function Beyond(os: seq<Observation>, table: Table, n: nat): nat
    requires Known(os)
    decreases |os|
  {
    if os == [] || n < RecordBytes(os[0], table) then n
    else Beyond(os[1..], ObservationTable(os[0], table), n - RecordBytes(os[0], table))
  }

  lemma CutTwo(first: Data, more: Data, n: nat)
    requires n <= |first| + |more|
    ensures (first + more)[..n] == if n < |first| then first[..n] else first + more[..n - |first|]
  {
  }

  lemma RecordedMore(os: seq<Observation>, k: nat)
    requires Known(os) && k < |os|
    ensures RecordedAll(os[..k + 1]) == [Recorded(os[0])] + RecordedAll(os[1..][..k])
  {
    assert os[..k + 1][1..] == os[1..][..k];
  }

  /** Reading a whole record, then all that follows it. */
  lemma ReadsOne(o: Observation, table: Table, rest: Data, limit: nat, checksum: Checksum)
    requires o.stage != UnknownStage && Distinct(table) && Admissible(o, table, limit)
    ensures Distinct(ObservationTable(o, table))
    ensures
      var more := All(Opened(rest, ObservationTable(o, table)), limit, checksum);
      All(Opened(Framed(ObservationBody(o, table), checksum) + rest, table), limit, checksum)
      == more.(records := [Recorded(o)] + more.records)
  {
    hide Framed, Next, Recorded, ObservationBody, ObservationTable, Distinct, Admissible;
    YieldsObservation(o, table, rest, limit, checksum);
  }

  /**
   Cut anywhere, a capture gives the whole records before the cut, and then a clean end
   if the cut is between records and a truncation if it is inside one.
   */
  lemma {:induction false} ReadsPrefix(os: seq<Observation>, table: Table, last: Data, n: nat, limit: nat, checksum: Checksum)
    requires Known(os) && Distinct(table) && AllAdmissible(os, table, limit)
    requires |last| < MOD32 && |last| <= limit
    requires n < |File(os, table, checksum)| + |Framed(last, checksum)|
    ensures All(Opened((File(os, table, checksum) + Framed(last, checksum))[..n], table), limit, checksum)
      == ReadOut(RecordedAll(os[..Whole(os, table, n)]),
                 if Beyond(os, table, n) == 0 then EndOfCapture else Failed(Truncated), None)
    decreases |os|
  {
    hide Framed, Next, Recorded, ObservationBody, ObservationTable, Distinct, Admissible;
    var file := File(os, table, checksum) + Framed(last, checksum);
    if os == [] {
      assert file == Framed(last, checksum);
      FramedParts(last, [], checksum);
      CutRecord(last, n, table, limit, checksum);
    } else {
      var body := ObservationBody(os[0], table);
      var next := ObservationTable(os[0], table);
      var first := Framed(body, checksum);
      var more := File(os[1..], next, checksum) + Framed(last, checksum);
      assert file == first + more;
      FirstAdmissible(os, table, limit);
      FramedParts(body, [], checksum);
      CutTwo(first, more, n);
      if n < RecordBytes(os[0], table) {
        CutRecord(body, n, table, limit, checksum);
      } else {
        var m := n - RecordBytes(os[0], table);
        ReadsOne(os[0], table, more[..m], limit, checksum);
        hide All;
        ReadsPrefix(os[1..], next, last, m, limit, checksum);
        RecordedMore(os, Whole(os[1..], next, m));
      }
    }
  }

  lemma FirstAdmissible(os: seq<Observation>, table: Table, limit: nat)
    requires Known(os) && AllAdmissible(os, table, limit) && os != []
    ensures Admissible(os[0], table, limit) && |ObservationBody(os[0], table)| < MOD32 && |ObservationBody(os[0], table)| <= limit
  {
    hide AllInRange, WrittenAll, Fields;
  }

  /** Where the cut is: exactly after the k-th record when nothing lies beyond it. */
  lemma {:induction false} BoundaryIs(os: seq<Observation>, table: Table, n: nat, limit: nat, checksum: Checksum)
    requires Known(os) && AllAdmissible(os, table, limit)
    ensures Beyond(os, table, n) + |File(os[..Whole(os, table, n)], table, checksum)| == n
    decreases |os|
  {
    hide Framed, ObservationBody, ObservationTable, Admissible;
    if os != [] && n >= RecordBytes(os[0], table) {
      var next := ObservationTable(os[0], table);
      var m := n - RecordBytes(os[0], table);
      FirstAdmissible(os, table, limit);
      FramedParts(ObservationBody(os[0], table), [], checksum);
      BoundaryIs(os[1..], next, m, limit, checksum);
      var k := Whole(os[1..], next, m);
      assert os[..k + 1][1..] == os[1..][..k] && os[..k + 1][0] == os[0];
    }
  }
}
