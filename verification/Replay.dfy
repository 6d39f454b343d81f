/**
 Replaying a capture (replay/player.go): every record that crossed the wire goes to a
 session or to a peer, and into the digest. The session is any codec; timing is left out.
 */
module Replay {
  import opened Wrappers
  import opened Bytes
  import opened CaptureFormat
  import opened CaptureTheorems
  import opened CaptureDigest
  import opened CaptureWriter
  import opened CaptureReader

  // ---- the session ---------------------------------------------------------------------------

  datatype Session = Session(state: Data, settings: Data, inbound: Byte)

  datatype Proposal = ProposalFails | NothingProposed | Proposed(transition: Data)

  /** What a session does, as functions of it. */
  datatype Codec = Codec(
    readFrame: Data -> Option<Data>,
    decode: (Session, Data) -> Option<Data>,
    propose: (Session, Data) -> Proposal,
    validate: (Session, Data) -> bool,
    apply: (Session, Data) -> Session)

  datatype Divergence = Divergence(sequence: Uint64, recorded: Data, proposed: Data)

  datatype PlayError = RedactedRecord | ReplayFailed | FromReader(outcome: Outcome)

  /** Everything a record may change at the destination. */
  datatype Place = Place(session: Session, primed: bool, diverged: seq<Divergence>, sent: Data)

  /** Only the first record primes. */
  function Primed(p: Place, r: Record): Place {
    if p.primed then p
    else if r.beforeState == [] || p.session.state == r.beforeState then p.(primed := true)
    else p.(primed := true, session := p.session.(state := r.beforeState))
  }

  /** Where the packet takes the session, if anywhere. */
  function Followed(codec: Codec, p: Place, packet: Data): Result<Place, PlayError> {
    match codec.propose(p.session, packet)
    case ProposalFails => Err(ReplayFailed)
    case NothingProposed => Ok(p)
    case Proposed(t) =>
      if codec.validate(p.session, t) then Ok(p.(session := codec.apply(p.session, t))) else Err(ReplayFailed)
  }

  /** The session has nothing to object to where the packet takes it. */
  predicate Follows(codec: Codec, s: Session, packet: Data) {
    match codec.propose(s, packet)
    case ProposalFails => false
    case NothingProposed => true
    case Proposed(t) => codec.validate(s, t)
  }

  /** The capture's answer wins; for the session's own direction a disagreement is a divergence. */
  function Reconciled(p: Place, r: Record): Place {
    if r.state == [] || p.session.state == r.state then p
    else
      var noted := if r.direction == p.session.inbound
                   then p.(diverged := p.diverged + [Divergence(r.sequence, r.state, p.session.state)])
                   else p;
      noted.(session := p.session.(state := r.state))
  }

  function DecodedAt(codec: Codec, before: Place, r: Record): (Place, Option<PlayError>) {
    var p := Primed(before, r);
    if r.kind == PacketKind then (Reconciled(p, r), None)
    else if r.kind != RawFrameKind || r.redacted || r.direction != p.session.inbound then (p, None)
    else
      var payload := codec.readFrame(r.payload);
      if payload.None? then (p, Some(ReplayFailed))
      else
        var packet := codec.decode(p.session, payload.value);
        if packet.None? then (p, Some(ReplayFailed))
        else
          match Followed(codec, p, packet.value)
          case Ok(q) => (q, None)
          case Err(e) => (p, Some(e))
  }

  function SentAt(p: Place, direction: Byte, r: Record): (Place, Option<PlayError>) {
    if r.kind != RawFrameKind || r.direction != direction then (p, None)
    else if r.redacted then (p, Some(RedactedRecord))
    else (p.(sent := p.sent + r.payload), None)
  }

  /** `peer` is the direction sent to a transport, if there is one. */
  function Applied(codec: Codec, peer: Option<Byte>, p: Place, r: Record): (Place, Option<PlayError>) {
    if peer.Some? then SentAt(p, peer.value, r) else DecodedAt(codec, p, r)
  }

  // ---- a whole replay -----------------------------------------------------------------------------

  datatype Played = Played(records: seq<Record>, place: Place, error: Option<PlayError>)

  /** Every replayable record of a list, until one fails. */
  function PlayAll(codec: Codec, peer: Option<Byte>, p: Place, rs: seq<Record>): Played
    decreases |rs|
  {
    if rs == [] then Played([], p, None)
    else if !rs[0].Replayable() then PlayAll(codec, peer, p, rs[1..])
    else
      var (q, error) := Applied(codec, peer, p, rs[0]);
      if error.Some? then Played([], q, error)
      else
        var more := PlayAll(codec, peer, q, rs[1..]);
        more.(records := [rs[0]] + more.records)
  }

  function Replayables(rs: seq<Record>): seq<Record>
    decreases |rs|
  {
    if rs == [] then [] else (if rs[0].Replayable() then [rs[0]] else []) + Replayables(rs[1..])
  }

  /** A replay that does not fail plays every record that crossed the wire, in order. */
  lemma {:induction false} PlaysEverything(codec: Codec, peer: Option<Byte>, p: Place, rs: seq<Record>)
    requires PlayAll(codec, peer, p, rs).error.None?
    ensures PlayAll(codec, peer, p, rs).records == Replayables(rs)
    decreases |rs|
  {
    if rs != [] {
      if rs[0].Replayable() {
        PlaysEverything(codec, peer, Applied(codec, peer, p, rs[0]).0, rs[1..]);
      } else {
        PlaysEverything(codec, peer, p, rs[1..]);
      }
    }
  }

  /**
   A replay stops at the first record that fails it: everything before has been played, in
   order, and nothing after it.
   */
  lemma {:induction false} StopsAtFirst(codec: Codec, peer: Option<Byte>, p: Place, rs: seq<Record>) returns (k: nat)
    requires PlayAll(codec, peer, p, rs).error.Some?
    ensures k < |rs| && rs[k].Replayable() && PlayAll(codec, peer, p, rs[..k]).error.None?
    ensures PlayAll(codec, peer, p, rs).records == Replayables(rs[..k])
    ensures
      var at := PlayAll(codec, peer, p, rs[..k]).place;
      (PlayAll(codec, peer, p, rs).place, PlayAll(codec, peer, p, rs).error) == Applied(codec, peer, at, rs[k])
    decreases |rs|
  {
    hide Applied, Record.Replayable;
    var q := if rs[0].Replayable() then Applied(codec, peer, p, rs[0]).0 else p;
    if rs[0].Replayable() && Applied(codec, peer, p, rs[0]).1.Some? {
      k := 0;
      assert rs[..0] == [];
    } else {
      var j := StopsAtFirst(codec, peer, q, rs[1..]);
      k := j + 1;
      assert rs[..k][1..] == rs[1..][..j] && rs[..k][0] == rs[0];
    }
  }

  /** What enters the digest is the same whether or not the other records are passed over first. */
  lemma {:induction false} ReplayableLines(rs: seq<Record>, hash: Hash)
    ensures Lines(Replayables(rs), hash) == Lines(rs, hash)
    decreases |rs|
  {
    hide Line;
    if rs != [] {
      ReplayableLines(rs[1..], hash);
      if rs[0].Replayable() {
        assert ([rs[0]] + Replayables(rs[1..]))[1..] == Replayables(rs[1..]);
      } else {
        assert Replayables(rs) == Replayables(rs[1..]) && Lines(rs, hash) == Lines(rs[1..], hash);
      }
    }
  }

  /** A completed replay of what was observed has the digest in the trailer, exactly when no raw record is named. */
  lemma ReplayDigest(os: seq<Observation>, codec: Codec, peer: Option<Byte>, p: Place, hash: Hash)
    requires Known(os) && FixedWidth(hash) && Sized(RecordedAll(os)) && Sized(DigestedAll(os))
    requires PlayAll(codec, peer, p, RecordedAll(os)).error.None?
    ensures
      var played := PlayAll(codec, peer, p, RecordedAll(os)).records;
      Transcript(played, hash) == Transcript(DigestedAll(os), hash) <==> Unnamed(os)
  {
    hide Lines, Summaries, BigEndian, PlayAll;
    PlaysEverything(codec, peer, p, RecordedAll(os));
    ReplayableLines(RecordedAll(os), hash);
    TranscriptDecodable(RecordedAll(os), DigestedAll(os), hash);
    DigestAgrees(os, hash);
  }

  /** Then the digest the replay reports is the trailer's. */
  lemma ReplayMatchesTrailer(os: seq<Observation>, codec: Codec, peer: Option<Byte>, p: Place, hash: Hash, finish: Hash)
    requires Known(os) && Unnamed(os) && FixedWidth(hash) && Sized(RecordedAll(os)) && Sized(DigestedAll(os))
    requires PlayAll(codec, peer, p, RecordedAll(os)).error.None?
    ensures
      finish(Transcript(PlayAll(codec, peer, p, RecordedAll(os)).records, hash)) == TrailerFor(os, hash, finish).digest
  {
    ReplayDigest(os, codec, peer, p, hash);
    hide Transcript, PlayAll;
  }

  /** From the bytes of a closed capture to the digest of its replay. */
  lemma ClosedCaptureReplays(os: seq<Observation>, limit: nat, checksum: Checksum, hash: Hash, finish: Hash,
                             codec: Codec, peer: Option<Byte>, p: Place)
    requires Known(os) && Unnamed(os) && AllAdmissible(os, [], limit)
    requires AdmissibleTrailer(TrailerFor(os, hash, finish), FileTable(os, []), limit)
    requires FixedWidth(hash) && Sized(RecordedAll(os)) && Sized(DigestedAll(os))
    ensures
      var file := File(os, [], checksum) + Framed(TrailerBody(TrailerFor(os, hash, finish), FileTable(os, [])), checksum);
      var read := All(Opened(file, []), limit, checksum);
      var played := PlayAll(codec, peer, p, read.records);
      && read.outcome == EndOfCapture && read.trailer.Some?
      && (played.error.None? ==> finish(Transcript(played.records, hash)) == read.trailer.value.digest)
  {
    hide All, PlayAll, Transcript, File, Framed, FileTable, TrailerBody, AllAdmissible, AdmissibleTrailer, TrailerFor, DigestedAll;
    WriterRoundTrip(os, limit, checksum, hash, finish);
    if PlayAll(codec, peer, p, RecordedAll(os)).error.None? {
      ReplayMatchesTrailer(os, codec, peer, p, hash, finish);
    }
  }

  // ---- playing to a peer ------------------------------------------------------------------------

  function Payloads(rs: seq<Record>, direction: Byte): Data
    decreases |rs|
  {
    if rs == [] then []
    else
      (if rs[0].kind == RawFrameKind && rs[0].direction == direction then rs[0].payload else [])
      + Payloads(rs[1..], direction)
  }

  /** A replay to a peer that completes has sent exactly the frames recorded in that direction. */
  lemma {:induction false} SendsEveryFrame(codec: Codec, direction: Byte, p: Place, rs: seq<Record>)
    requires PlayAll(codec, Some(direction), p, rs).error.None?
    ensures PlayAll(codec, Some(direction), p, rs).place.sent == p.sent + Payloads(rs, direction)
    ensures forall i :: 0 <= i < |rs| && rs[i].kind == RawFrameKind && rs[i].direction == direction ==> !rs[i].redacted
    decreases |rs|
  {
    if rs == [] {
      assert p.sent + [] == p.sent;
    } else {
      var q := if rs[0].Replayable() then Applied(codec, Some(direction), p, rs[0]).0 else p;
      SendsEveryFrame(codec, direction, q, rs[1..]);
      assert (p.sent + rs[0].payload) + Payloads(rs[1..], direction) == p.sent + (rs[0].payload + Payloads(rs[1..], direction));
      assert p.sent + ([] + Payloads(rs[1..], direction)) == p.sent + Payloads(rs[1..], direction);
      forall i | 0 <= i < |rs| && rs[i].kind == RawFrameKind && rs[i].direction == direction ensures !rs[i].redacted {
        if i > 0 { assert rs[i] == rs[1..][i - 1]; }
      }
    }
  }

  // ---- the player -----------------------------------------------------------------------------------------

  datatype Report = Report(records: nat, digest: Data, divergences: seq<Divergence>)

  class Player {
    const reader: Reader
    const codec: Codec
    const peer: Option<Byte>
    const digester: Digester
    var session: Session
    var primed: bool
    var diverged: seq<Divergence>
    /** What the peer has been sent. */
    var sent: Data
    var records: nat
    var exhausted: bool

    ghost predicate Valid()
      reads this, digester
    {
      digester.Valid() && records == |digester.added|
    }

    ghost function At(): Place
      reads this
    {
      Place(session, primed, diverged, sent)
    }

    /** What the reader has still to give. */
    ghost function Ahead(): ReadOut
      reads reader
    {
      All(reader.View(), reader.frameBytes + MAX_HEADER_BYTES, reader.checksum)
    }

    /** What playing all of it comes to. */
    ghost function Plan(): Played
      reads this, reader
    {
      PlayAll(codec, peer, At(), Ahead().records)
    }

    constructor (reader: Reader, session: Session, codec: Codec, peer: Option<Byte>, hash: Hash, finish: Hash)
      ensures Valid() && At() == Place(session, false, [], []) && digester.added == [] && fresh(digester)
      ensures this.reader == reader && this.codec == codec && this.peer == peer
      ensures digester.hash == hash && digester.finish == finish
    {
      this.reader, this.codec, this.peer, this.session := reader, codec, peer, session;
      primed, diverged, sent, records, exhausted := false, [], [], 0, false;
      digester := new Digester(hash, finish);
    }

    /** The first record alone, if it names a state, says where the session starts. */
    method Prime(r: Record)
      modifies `session, `primed
      ensures At() == Primed(old(At()), r) && primed
      ensures session.state == if !old(primed) && r.beforeState != [] then r.beforeState else old(session.state)
      ensures session.settings == old(session.settings) && session.inbound == old(session.inbound)
    {
      if primed { return; }
      primed := true;
      if r.beforeState == [] || session.state == r.beforeState { return; }
      session := session.(state := r.beforeState);
    }

    /** The session ends where the record says; that it was elsewhere counts against it in its own direction alone. */
    method Reconcile(r: Record)
      modifies `session, `diverged
      ensures At() == Reconciled(old(At()), r)
      ensures r.state != [] ==> session.state == r.state
      ensures session.settings == old(session.settings) && session.inbound == old(session.inbound)
      ensures diverged == old(diverged) ||
        diverged == old(diverged) + [Divergence(r.sequence, r.state, old(session.state))]
      ensures diverged != old(diverged) <==> r.state != [] && r.state != old(session.state) && r.direction == session.inbound
    {
      if r.state == [] || session.state == r.state { return; }
      if r.direction == session.inbound {
        diverged := diverged + [Divergence(r.sequence, r.state, session.state)];
      }
      session := session.(state := r.state);
    }

    method Follow(packet: Data) returns (error: Option<PlayError>)
      modifies `session
      ensures
        match Followed(codec, old(At()), packet)
        case Ok(q) => error == None && At() == q
        case Err(e) => error == Some(e) && At() == old(At())
      ensures session != old(session) ==> exists t ::
        && codec.propose(old(session), packet) == Proposed(t) && codec.validate(old(session), t)
        && session == codec.apply(old(session), t)
      ensures error == if Follows(codec, old(session), packet) then None else Some(ReplayFailed)
    {
      match codec.propose(session, packet) {
        case ProposalFails => return Some(ReplayFailed);
        case NothingProposed => return None;
        case Proposed(t) =>
          if !codec.validate(session, t) { return Some(ReplayFailed); }
          session := codec.apply(session, t);
          return None;
      }
    }

    method DecodeRecord(r: Record) returns (error: Option<PlayError>)
      modifies `session, `primed, `diverged
      ensures (At(), error) == DecodedAt(codec, old(At()), r) && primed
      ensures r.kind == PacketKind && r.state != [] ==> session.state == r.state
      ensures diverged != old(diverged) ==> r.kind == PacketKind && r.direction == session.inbound && r.state != []
      ensures error.Some? ==> r.kind == RawFrameKind && !r.redacted && r.direction == session.inbound
      ensures
        var at := Primed(old(At()), r).session;
        error.Some? <==>
          && r.kind == RawFrameKind && !r.redacted && r.direction == at.inbound
          && (codec.readFrame(r.payload).None? || codec.decode(at, codec.readFrame(r.payload).value).None?
              || !Follows(codec, at, codec.decode(at, codec.readFrame(r.payload).value).value))
      ensures error.Some? ==> error == Some(ReplayFailed)
    {
      hide Primed, Reconciled, Followed;
      Prime(r);
      if r.kind == PacketKind {
        Reconcile(r);
        return None;
      }
      if r.kind != RawFrameKind || r.redacted || r.direction != session.inbound { return None; }
      var payload := codec.readFrame(r.payload);
      if payload.None? { return Some(ReplayFailed); }
      var packet := codec.decode(session, payload.value);
      if packet.None? { return Some(ReplayFailed); }
      error := Follow(packet.value);
    }

    method SendRecord(r: Record, direction: Byte) returns (error: Option<PlayError>)
      modifies `sent
      ensures (At(), error) == SentAt(old(At()), direction, r)
    {
      if r.kind != RawFrameKind || r.direction != direction { return None; }
      if r.redacted { return Some(RedactedRecord); }
      sent := sent + r.payload;
      return None;
    }

    method ApplyRecord(r: Record) returns (error: Option<PlayError>)
      modifies `session, `primed, `diverged, `sent
      ensures (At(), error) == Applied(codec, peer, old(At()), r)
    {
      hide DecodedAt, SentAt;
      if peer.Some? { error := SendRecord(r, peer.value); } else { error := DecodeRecord(r); }
    }

    /** The next record that crossed the wire, once the destination has it. */
    method NextRecord() returns (r: Result<Record, PlayError>)
      requires Valid()
      modifies this, digester, reader
      ensures Valid()
      ensures r.Ok? ==>
        && old(Plan()) == Plan().(records := [r.value] + Plan().records)
        && Ahead().outcome == old(Ahead()).outcome && Ahead().trailer == old(Ahead()).trailer
        && digester.added == old(digester.added) + [r.value] && |reader.source| < |old(reader.source)|
      ensures r.Err? ==> digester.added == old(digester.added)
      ensures r.Err? && r.error.FromReader? ==>
        old(Plan()) == Played([], At(), None) && old(Ahead()).outcome == r.error.outcome
      ensures r.Err? && !r.error.FromReader? ==> old(Plan()) == Played([], At(), Some(r.error))
    {
      hide Applied, Next, All, PlayAll, Transcript, Record.Replayable;
      ghost var start := At();
      while true
        invariant Valid() && At() == start && digester.added == old(digester.added)
        invariant old(Plan()) == Plan()
        invariant Ahead().outcome == old(Ahead()).outcome && Ahead().trailer == old(Ahead()).trailer
        invariant |reader.source| <= |old(reader.source)|
        decreases |reader.source|
      {
        ghost var view, ahead := reader.View(), Ahead();
        var outcome := reader.NextRecord();
        FirstAhead(view, reader.frameBytes + MAX_HEADER_BYTES, reader.checksum);
        if !outcome.Yields? {
          if outcome == EndOfCapture { exhausted := true; }
          PlayNothing(codec, peer, start);
          return Err(FromReader(outcome));
        }
        var record := outcome.record;
        PlayFirst(codec, peer, start, record, Ahead().records);
        if !record.Replayable() { continue; }
        var error := ApplyRecord(record);
        OwnErrors(codec, peer, start, record);
        if error.Some? { return Err(error.value); }
        digester.Add(record);
        records := records + 1;
        return Ok(record);
      }
    }

    /** Every record, and what was learned. */
    method Run() returns (report: Report, error: Option<PlayError>)
      requires Valid() && digester.added == []
      modifies this, digester, reader
      ensures Valid() && digester.added == old(Plan()).records
      ensures report == Report(|old(Plan()).records|, digester.finish(Transcript(old(Plan()).records, digester.hash)), old(Plan()).place.diverged)
      ensures sent == old(Plan()).place.sent
      ensures error ==
        if old(Plan()).error.Some? then old(Plan()).error
        else if old(Ahead()).outcome == EndOfCapture then None
        else Some(FromReader(old(Ahead()).outcome))
    {
      hide PlayAll, All, Transcript;
      while true
        invariant Valid()
        invariant old(Plan()) == Plan().(records := digester.added + Plan().records)
        invariant Ahead().outcome == old(Ahead()).outcome
        decreases |reader.source|
      {
        ghost var done, plan := digester.added, Plan();
        var r := NextRecord();
        if r.Ok? {
          assert done + ([r.value] + Plan().records) == digester.added + Plan().records;
          continue;
        }
        assert done + [] == done;
        var sum := digester.Sum();
        report := Report(records, sum, diverged);
        error := if r.error == FromReader(EndOfCapture) then None else Some(r.error);
        return;
      }
    }
  }

  lemma PlayFirst(codec: Codec, peer: Option<Byte>, p: Place, r: Record, rest: seq<Record>)
    ensures
      var (q, error) := Applied(codec, peer, p, r);
      PlayAll(codec, peer, p, [r] + rest) ==
        if !r.Replayable() then PlayAll(codec, peer, p, rest)
        else if error.Some? then Played([], q, error)
        else PlayAll(codec, peer, q, rest).(records := [r] + PlayAll(codec, peer, q, rest).records)
  {
    hide Applied;
    assert ([r] + rest)[1..] == rest;
  }

  lemma OwnErrors(codec: Codec, peer: Option<Byte>, p: Place, r: Record)
    ensures Applied(codec, peer, p, r).1.Some? ==> !Applied(codec, peer, p, r).1.value.FromReader?
  {
  }

  lemma PlayNothing(codec: Codec, peer: Option<Byte>, p: Place)
    ensures PlayAll(codec, peer, p, []) == Played([], p, None)
  {
  }

  /** One call of the reader against everything it will give. */
  lemma FirstAhead(r: Reading, limit: nat, checksum: Checksum)
    ensures
      var (next, outcome) := Next(r, limit, checksum);
      && (outcome.Yields? ==>
            && All(r, limit, checksum) == All(next, limit, checksum).(records := [outcome.record] + All(next, limit, checksum).records)
            && |next.rest| < |r.rest| && !next.done)
      && (!outcome.Yields? ==> All(r, limit, checksum) == ReadOut([], outcome, next.trailer))
  {
    hide Decode, Number;
    if Next(r, limit, checksum).1.Yields? { YieldsConsumes(r, limit, checksum); }
  }
}
