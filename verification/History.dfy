/**
 The ring of recent observations (history/ring.go). After any run of observations it
 holds the longest suffix of the whole history that its bounds admit.
 */
module History {
  import opened Wrappers
  import opened Bytes

  datatype Observation = Observation(sequence: nat, bytes: Data)

  function Size(os: seq<Observation>): nat {
    if os == [] then 0 else |os[0].bytes| + Size(os[1..])
  }

  /** Within both bounds; one record alone is kept whatever its size. */
  predicate Fits(os: seq<Observation>, maxRecords: nat, maxBytes: nat) {
    |os| <= maxRecords && (Size(os) <= maxBytes || |os| <= 1)
  }

  function Last(history: seq<Observation>, k: nat): seq<Observation>
    requires k <= |history|
  {
    history[|history| - k..]
  }

  /** The longest suffix that fits: this one does, and none longer does. */
  predicate Longest(history: seq<Observation>, kept: seq<Observation>, maxRecords: nat, maxBytes: nat) {
    && |kept| <= |history| && kept == Last(history, |kept|) && Fits(kept, maxRecords, maxBytes)
    && NoneLonger(history, |kept|, maxRecords, maxBytes)
  }

  predicate NoneLonger(history: seq<Observation>, n: nat, maxRecords: nat, maxBytes: nat) {
    forall k :: n < k <= |history| ==> !Fits(Last(history, k), maxRecords, maxBytes)
  }

  // ---- sizes --------------------------------------------------------------------------------

  lemma {:induction false} SizeAppend(os: seq<Observation>, o: Observation)
    ensures Size(os + [o]) == Size(os) + |o.bytes|
  {
    if os == [] {
      assert [o][1..] == [];
    } else {
      assert (os + [o])[1..] == os[1..] + [o];
      SizeAppend(os[1..], o);
    }
  }

  lemma SizeOfOne(o: Observation)
    ensures Size([]) == 0 && Size([o]) == |o.bytes|
  {
    assert [o][1..] == [];
  }

  /** What did not fit does not fit with one record more. */
  lemma StillTooLong(history: seq<Observation>, o: Observation, n: nat, maxRecords: nat, maxBytes: nat)
    requires NoneLonger(history, n, maxRecords, maxBytes)
    ensures NoneLonger(history + [o], n + 1, maxRecords, maxBytes)
  {
    forall k | n + 1 < k <= |history| + 1 ensures !Fits(Last(history + [o], k), maxRecords, maxBytes) {
      assert Last(history + [o], k) == Last(history, k - 1) + [o];
      assert !Fits(Last(history, k - 1), maxRecords, maxBytes);
      SizeAppend(Last(history, k - 1), o);
    }
  }

  /** There is only one longest suffix. */
  lemma LongestUnique(history: seq<Observation>, a: seq<Observation>, b: seq<Observation>, maxRecords: nat, maxBytes: nat)
    requires Longest(history, a, maxRecords, maxBytes) && Longest(history, b, maxRecords, maxBytes)
    ensures a == b
  {
    assert Fits(Last(history, |a|), maxRecords, maxBytes) && Fits(Last(history, |b|), maxRecords, maxBytes);
  }

  // ---- the ring ---------------------------------------------------------------------------------

  class Ring {
    const maxRecords: nat
    const maxBytes: nat
    var records: seq<Observation>
    var bytes: nat
    var dropped: nat
    ghost var history: seq<Observation>

    ghost predicate Valid()
      reads this
    {
      && maxRecords > 0 && maxBytes > 0
      && Longest(history, records, maxRecords, maxBytes)
      && bytes == Size(records)
      && dropped + |records| == |history|
    }

    constructor (maxRecords: nat, maxBytes: nat)
      requires maxRecords > 0 && maxBytes > 0
      ensures Valid() && history == []
      ensures this.maxRecords == maxRecords && this.maxBytes == maxBytes
    {
      this.maxRecords, this.maxBytes := maxRecords, maxBytes;
      records, bytes, dropped, history := [], 0, 0, [];
    }

    method Observe(o: Observation)
      requires Valid()
      modifies this
      ensures Valid() && history == old(history) + [o]
      ensures 1 <= |records| <= maxRecords && (Size(records) <= maxBytes || |records| == 1)
      ensures |records| < |history| ==>
        |records| == maxRecords || Size(Last(history, |records| + 1)) > maxBytes
    {
      hide Fits, Size, Last, NoneLonger;
      SizeAppend(records, o);
      StillTooLong(history, o, |records|, maxRecords, maxBytes);
      OneMore(history, records, o);
      records := records + [o];
      bytes := bytes + |o.bytes|;
      history := history + [o];
      while |records| > maxRecords || (bytes > maxBytes && |records| > 1)
        invariant history == old(history) + [o]
        invariant 0 < |records| <= |history| && records == Last(history, |records|)
        invariant NoneLonger(history, |records|, maxRecords, maxBytes)
        invariant bytes == Size(records) && dropped + |records| == |history|
        decreases |records|
      {
        TooLong(records, maxRecords, maxBytes);
        FirstSize(records);
        OneShorter(history, records, maxRecords, maxBytes);
        bytes := bytes - |records[0].bytes|;
        records := records[1..];
        dropped := dropped + 1;
      }
      WithinBounds(records, maxRecords, maxBytes);
      if |records| < |history| { NotOneMore(history, |records|, maxRecords, maxBytes); }
    }

    /** A copy of what is kept, in order of arrival. */
    method Snapshot() returns (copied: seq<Observation>)
      requires Valid()
      ensures Longest(history, copied, maxRecords, maxBytes)
    {
      copied := [];
      var index := 0;
      while index < |records|
        invariant index <= |records| && copied == records[..index]
      {
        copied := copied + [records[index]];
        index := index + 1;
      }
    }

    /** The number of observations no snapshot holds any more. */
    method Dropped() returns (n: nat)
      requires Valid()
      ensures forall kept :: Longest(history, kept, maxRecords, maxBytes) ==> n + |kept| == |history|
    {
      forall kept | Longest(history, kept, maxRecords, maxBytes) ensures kept == records {
        LongestUnique(history, kept, records, maxRecords, maxBytes);
      }
      n := dropped;
    }
  }

  /** Both bounds must be positive: an empty ring, or a refusal. */
  method NewRing(maxRecords: int, maxBytes: int) returns (made: Option<Ring>)
    ensures made.Some? <==> maxRecords > 0 && maxBytes > 0
    ensures made.Some? ==> fresh(made.value) && made.value.Valid() && made.value.history == []
    ensures made.Some? ==> made.value.maxRecords == maxRecords && made.value.maxBytes == maxBytes
  {
    if maxRecords <= 0 {
      return None;
    }
    if maxBytes <= 0 {
      return None;
    }
    var ring := new Ring(maxRecords, maxBytes);
    return Some(ring);
  }

  lemma OneMore(history: seq<Observation>, kept: seq<Observation>, o: Observation)
    requires |kept| <= |history| && kept == Last(history, |kept|)
    ensures kept + [o] == Last(history + [o], |kept| + 1)
  {
  }

  /** The oldest record goes: what is left is a suffix, and the longer one did not fit. */
  lemma OneShorter(history: seq<Observation>, kept: seq<Observation>, maxRecords: nat, maxBytes: nat)
    requires 0 < |kept| <= |history| && kept == Last(history, |kept|)
    requires NoneLonger(history, |kept|, maxRecords, maxBytes) && !Fits(kept, maxRecords, maxBytes)
    ensures kept[1..] == Last(history, |kept| - 1) && NoneLonger(history, |kept| - 1, maxRecords, maxBytes)
  {
    hide Fits;
  }

  /** What keeps one record more from fitting. */
  lemma NotOneMore(history: seq<Observation>, n: nat, maxRecords: nat, maxBytes: nat)
    requires 0 < n < |history| && NoneLonger(history, n, maxRecords, maxBytes) && n <= maxRecords
    ensures n == maxRecords || Size(Last(history, n + 1)) > maxBytes
  {
    assert !Fits(Last(history, n + 1), maxRecords, maxBytes);
  }

  lemma TooLong(os: seq<Observation>, maxRecords: nat, maxBytes: nat)
    requires |os| > maxRecords || (Size(os) > maxBytes && |os| > 1)
    ensures !Fits(os, maxRecords, maxBytes)
  {
  }

  lemma WithinBounds(os: seq<Observation>, maxRecords: nat, maxBytes: nat)
    requires |os| <= maxRecords && (Size(os) <= maxBytes || |os| <= 1)
    ensures Fits(os, maxRecords, maxBytes)
  {
  }

  lemma FirstSize(os: seq<Observation>)
    requires os != []
    ensures Size(os) == |os[0].bytes| + Size(os[1..])
  {
  }
}
