/**
 The replay digest (capture/digest.go). What is hashed is a transcript of the records
 that crossed the wire; the theorem is that the transcript can be read back in only one
 way. `hash` stands for SHA-256 of a payload, `finish` for SHA-256 of the transcript in hex.
 */
module CaptureDigest {
  import opened Wrappers
  import opened Bytes
  import opened CaptureFields
  import opened CaptureFormat

  const DIGEST_VERSION: Uint32 := 1

  type Hash = Data -> Data

  ghost predicate FixedWidth(hash: Hash) {
    forall d :: |hash(d)| == 32
  }

  function Line(r: Record, hash: Hash): Data {
    BigEndian(8, r.sequence) + (BigEndian(8, r.direction) + (BigEndian(8, |r.state|) + (r.state
    + (BigEndian(8, Unsigned32(r.packetID)) + (BigEndian(8, |r.payload|) + hash(r.payload))))))
  }

  /** The lines of the records that crossed the wire. */
  function Lines(rs: seq<Record>, hash: Hash): Data
    decreases |rs|
  {
    if rs == [] then [] else (if rs[0].Replayable() then Line(rs[0], hash) else []) + Lines(rs[1..], hash)
  }

  function Transcript(rs: seq<Record>, hash: Hash): Data {
    BigEndian(8, DIGEST_VERSION) + Lines(rs, hash)
  }

  lemma {:induction false} LinesAppend(rs: seq<Record>, qs: seq<Record>, hash: Hash)
    ensures Lines(rs + qs, hash) == Lines(rs, hash) + Lines(qs, hash)
    decreases |rs|
  {
    if rs == [] {
      assert rs + qs == qs;
    } else {
      assert (rs + qs)[1..] == rs[1..] + qs;
      LinesAppend(rs[1..], qs, hash);
    }
  }

  // ---- what a digest covers ---------------------------------------------------------------------

  /** What one record contributes. */
  datatype Summary = Summary(sequence: Uint64, direction: Byte, state: Data, packetID: Int32, length: nat, payloadHash: Data)

  function SummaryOf(r: Record, hash: Hash): Summary {
    Summary(r.sequence, r.direction, r.state, r.packetID, |r.payload|, hash(r.payload))
  }

  function Summaries(rs: seq<Record>, hash: Hash): seq<Summary>
    decreases |rs|
  {
    if rs == [] then []
    else (if rs[0].Replayable() then [SummaryOf(rs[0], hash)] else []) + Summaries(rs[1..], hash)
  }

  predicate Sized(rs: seq<Record>) {
    forall i :: 0 <= i < |rs| ==> |rs[i].state| < MOD64 && |rs[i].payload| < MOD64
  }

  // ---- the transcript is read in one way ------------------------------------------------------------

  lemma SamePrefix(a: Data, x: Data, b: Data, y: Data)
    requires a + x == b + y && |a| == |b|
    ensures a == b && x == y
  {
    Split(a, x);
    Split(b, y);
  }

  lemma SameLong(v: nat, x: Data, w: nat, y: Data)
    requires v < MOD64 && w < MOD64 && BigEndian(8, v) + x == BigEndian(8, w) + y
    ensures v == w && x == y
  {
    SamePrefix(BigEndian(8, v), x, BigEndian(8, w), y);
    NumberOf64(v);
    NumberOf64(w);
  }

  lemma SameID(v: Int32, w: Int32)
    requires Unsigned32(v) == Unsigned32(w)
    ensures v == w
  {
  }

  /** A line ends where it says it ends, and says everything in its summary. */
  lemma SameLine(r: Record, x: Data, q: Record, y: Data, hash: Hash)
    requires FixedWidth(hash) && |r.state| < MOD64 && |q.state| < MOD64 && |r.payload| < MOD64 && |q.payload| < MOD64
    requires Line(r, hash) + x == Line(q, hash) + y
    ensures SummaryOf(r, hash) == SummaryOf(q, hash) && x == y
  {
    hide BigEndian;
    var r5, q5 := hash(r.payload) + x, hash(q.payload) + y;
    var r4, q4 := BigEndian(8, |r.payload|) + r5, BigEndian(8, |q.payload|) + q5;
    var r3, q3 := BigEndian(8, Unsigned32(r.packetID)) + r4, BigEndian(8, Unsigned32(q.packetID)) + q4;
    var r2, q2 := BigEndian(8, |r.state|) + (r.state + r3), BigEndian(8, |q.state|) + (q.state + q3);
    var r1, q1 := BigEndian(8, r.direction) + r2, BigEndian(8, q.direction) + q2;
    assert Line(r, hash) + x == BigEndian(8, r.sequence) + r1;
    assert Line(q, hash) + y == BigEndian(8, q.sequence) + q1;
    SameLong(r.sequence, r1, q.sequence, q1);
    SameLong(r.direction, r2, q.direction, q2);
    SameLong(|r.state|, r.state + r3, |q.state|, q.state + q3);
    SamePrefix(r.state, r3, q.state, q3);
    SameLong(Unsigned32(r.packetID), r4, Unsigned32(q.packetID), q4);
    SameID(r.packetID, q.packetID);
    SameLong(|r.payload|, r5, |q.payload|, q5);
    SamePrefix(hash(r.payload), x, hash(q.payload), y);
  }

  lemma LineNotEmpty(r: Record, hash: Hash)
    ensures |Line(r, hash)| > 0
  {
  }

  /** Equal transcripts come from equal summaries, record by record. */
  lemma {:induction false} SameLines(rs: seq<Record>, qs: seq<Record>, hash: Hash)
    requires FixedWidth(hash) && Sized(rs) && Sized(qs) && Lines(rs, hash) == Lines(qs, hash)
    ensures Summaries(rs, hash) == Summaries(qs, hash)
    decreases |rs| + |qs|
  {
    hide Line, SummaryOf;
    if rs != [] && !rs[0].Replayable() {
      assert Lines(rs, hash) == Lines(rs[1..], hash);
      SameLines(rs[1..], qs, hash);
    } else if qs != [] && !qs[0].Replayable() {
      assert Lines(qs, hash) == Lines(qs[1..], hash);
      SameLines(rs, qs[1..], hash);
    } else if rs == [] || qs == [] {
      if rs != [] { LineNotEmpty(rs[0], hash); }
      if qs != [] { LineNotEmpty(qs[0], hash); }
    } else {
      SameLine(rs[0], Lines(rs[1..], hash), qs[0], Lines(qs[1..], hash), hash);
      SameLines(rs[1..], qs[1..], hash);
    }
  }

  /** And equal summaries give equal transcripts, so the digest covers exactly them. */
  lemma {:induction false} SameSummaries(rs: seq<Record>, qs: seq<Record>, hash: Hash)
    requires Summaries(rs, hash) == Summaries(qs, hash)
    ensures Lines(rs, hash) == Lines(qs, hash)
    decreases |rs| + |qs|
  {
    hide BigEndian;
    if rs != [] && !rs[0].Replayable() {
      assert Summaries(rs, hash) == Summaries(rs[1..], hash);
      SameSummaries(rs[1..], qs, hash);
    } else if qs != [] && !qs[0].Replayable() {
      assert Summaries(qs, hash) == Summaries(qs[1..], hash);
      SameSummaries(rs, qs[1..], hash);
    } else if rs != [] && qs != [] {
      assert Summaries(rs, hash)[0] == SummaryOf(rs[0], hash) && Summaries(qs, hash)[0] == SummaryOf(qs[0], hash);
      assert Summaries(rs, hash)[1..] == Summaries(rs[1..], hash) && Summaries(qs, hash)[1..] == Summaries(qs[1..], hash);
      SameSummaries(rs[1..], qs[1..], hash);
    }
  }

  lemma TranscriptDecodable(rs: seq<Record>, qs: seq<Record>, hash: Hash)
    requires FixedWidth(hash) && Sized(rs) && Sized(qs)
    ensures Transcript(rs, hash) == Transcript(qs, hash) <==> Summaries(rs, hash) == Summaries(qs, hash)
  {
    hide BigEndian, Lines, Summaries;
    var version := BigEndian(8, DIGEST_VERSION);
    if Transcript(rs, hash) == Transcript(qs, hash) {
      SamePrefix(version, Lines(rs, hash), version, Lines(qs, hash));
      SameLines(rs, qs, hash);
    }
    if Summaries(rs, hash) == Summaries(qs, hash) { SameSummaries(rs, qs, hash); }
  }

  /** Where a line's parts are, in numbers; and the transcript begins with version 1, in eight bytes. */
  lemma LineLayout(r: Record, hash: Hash)
    requires FixedWidth(hash)
    ensures
      var line, n := Line(r, hash), |r.state|;
      && |line| == 72 + n
      && line[..8] == BigEndian(8, r.sequence) && line[8..16] == BigEndian(8, r.direction)
      && line[16..24] == BigEndian(8, n) && line[24..24 + n] == r.state
      && line[24 + n..32 + n] == BigEndian(8, r.packetID % 0x1_0000_0000)
      && line[32 + n..40 + n] == BigEndian(8, |r.payload|) && line[40 + n..] == hash(r.payload)
  {
    hide BigEndian;
    assert Unsigned32(r.packetID) == r.packetID % 0x1_0000_0000;
  }

  lemma TranscriptBegins(rs: seq<Record>, hash: Hash)
    ensures |Transcript(rs, hash)| >= 8 && Transcript(rs, hash)[..8] == BigEndian(8, 1)
  {
    hide BigEndian, Lines;
  }

  /** Feeding a line field by field. */
  lemma FedLine(fed: Data, r: Record, hash: Hash)
    ensures fed + BigEndian(8, r.sequence) + BigEndian(8, r.direction) + BigEndian(8, |r.state|) + r.state
            + BigEndian(8, Unsigned32(r.packetID)) + BigEndian(8, |r.payload|) + hash(r.payload)
         == fed + Line(r, hash)
  {
    hide BigEndian, Unsigned32;
    var a, b, c := BigEndian(8, r.sequence), BigEndian(8, r.direction), BigEndian(8, |r.state|);
    var d, e, f := BigEndian(8, Unsigned32(r.packetID)), BigEndian(8, |r.payload|), hash(r.payload);
    Associates(fed, a, b, c, r.state, d, e, f);
  }

  lemma Associates(z: Data, a: Data, b: Data, c: Data, s: Data, d: Data, e: Data, f: Data)
    ensures z + a + b + c + s + d + e + f == z + (a + (b + (c + (s + (d + (e + f))))))
  {
  }

  // ---- the digester ---------------------------------------------------------------------------------------

  class Digester {
    const hash: Hash
    const finish: Hash
    /** Everything fed to the hash so far. */
    var fed: Data
    ghost var added: seq<Record>

    ghost predicate Valid()
      reads this
    {
      fed == Transcript(added, hash)
    }

    constructor (hash: Hash, finish: Hash)
      ensures Valid() && added == [] && this.hash == hash && this.finish == finish
    {
      this.hash, this.finish, added := hash, finish, [];
      fed := BigEndian(8, DIGEST_VERSION);
    }

    method WriteUint64(value: nat)
      modifies `fed
      ensures fed == old(fed) + BigEndian(8, value)
    {
      fed := fed + BigEndian(8, value);
    }

    method WriteString(value: Data)
      modifies `fed
      ensures fed == old(fed) + BigEndian(8, |value|) + value
    {
      WriteUint64(|value|);
      fed := fed + value;
    }

    /** Only what crossed the wire is fed. */
    method Add(r: Record)
      requires Valid()
      modifies this
      ensures Valid() && added == old(added) + [r]
    {
      hide Line, BigEndian, Unsigned32;
      FedLine(fed, r, hash);
      LinesAppend(added, [r], hash);
      assert [r][1..] == [] && Lines([r], hash) == (if r.Replayable() then Line(r, hash) else []) + [];
      added := added + [r];
      if r.Replayable() {
        WriteUint64(r.sequence);
        WriteUint64(r.direction);
        WriteString(r.state);
        WriteUint64(Unsigned32(r.packetID));
        WriteUint64(|r.payload|);
        fed := fed + hash(r.payload);
      }
    }

    method Sum() returns (sum: Data)
      requires Valid()
      ensures sum == finish(Transcript(added, hash))
    {
      sum := finish(fed);
    }
  }
}
