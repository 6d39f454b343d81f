/**
 What a stream holds in memory before it is stopped, and the exact limits under which
 that never exceeds its buffer (limits.go, stream.go). The queues are charged to the
 budget; a frame being read, a frame being decoded, a packet that has been decoded but
 not yet charged, and a packet on its way out are not.
 */
module StreamMemory {
  import opened Wrappers
  import opened Budget
  import opened Stream
  import opened StreamBalance
  import opened StreamConservation
  import opened StreamSafety
  import opened StreamSafe
  import opened StreamInbound
  import opened StreamDrops
  import opened StreamWrites
  import opened StreamRecords
  import opened StreamTheorems

  /** The limits that size a stream; a buffer below one working set is refused. */
  datatype Limits = Limits(queueItems: nat, bufferedBytes: nat, frameBytes: nat, decompressedBytes: nat) {
    predicate Valid() {
      queueItems >= 1 && frameBytes >= 1 && decompressedBytes >= 1 && bufferedBytes >= WorkingSet()
    }

    function WorkingSet(): nat {
      frameBytes + decompressedBytes
    }

    function StreamConfig(sink: bool): Config {
      var capacity := bufferedBytes - 2 * WorkingSet();
      Config(queueItems, if capacity < 0 then 0 else capacity, sink)
    }
  }

  // ---- what is held ---------------------------------------------------------------------------

  /** The packets decoded and held without being charged: carried by the coordinator, or waiting for a grant. */
  function Uncharged(s: State): seq<Arrival> {
    (if s.inb.pending.Some? && !PendingGranted(s) then [s.inb.pending.value.arrival] else [])
    + if s.work.HandingOver? then [] else Carried(s.work)
  }

  /** An outbound packet is being encoded and framed. */
  predicate OutboundInFlight(work: Work) {
    || Serving(work).Some? || work.GoodbyeHanding? || work.GoodbyeAwaiting?
    || (NextOf(work).Some? && (NextOf(work).value.GoodbyeRawNext? || NextOf(work).value.GoodbyeNext?))
  }

  /** One share for each holder. */
  function InUse(l: Limits, s: State): int {
    s.budget.bytes
    + (if SlotWithReader(s) then l.frameBytes else 0)
    + (if SlotWithCoordinator(s.work) then l.frameBytes + l.decompressedBytes else 0)
    + Sizes(Uncharged(s))
    + (if OutboundInFlight(s.work) then l.WorkingSet() else 0)
  }

  predicate FitsNow(l: Limits, s: State) {
    !s.stopping ==> InUse(l, s) <= l.bufferedBytes
  }

  /** No packet of the run decodes to more than this. */
  predicate NoneLarger(steps: seq<Step>, largest: nat) {
    forall k :: 0 <= k < |steps| ==> DecodesWithin(steps[k], largest)
  }

  predicate DecodesWithin(step: Step, largest: nat) {
    match step
    case OfArrival(Decode(Decoded(size, _, _))) => size <= largest
    case _ => true
  }

  ghost predicate AlwaysFits(l: Limits, largest: nat, s: State)
    requires s.budget.Sound()
  {
    forall steps :: CanAll(s, steps) && NoneLarger(steps, largest) ==> FitsNow(l, DoAll(s, steps))
  }

  // ---- every run within the limits ---------------------------------------------------------------

  predicate AllWithin(items: seq<Arrival>, largest: nat) {
    forall i :: 0 <= i < |items| ==> items[i].size <= largest
  }

  lemma {:induction false} DecodedWithin(s: State, steps: seq<Step>, largest: nat)
    requires s.budget.Sound() && CanAll(s, steps) && NoneLarger(steps, largest) && AllWithin(s.inb.decoded, largest)
    ensures AllWithin(DoAll(s, steps).inb.decoded, largest)
    decreases |steps|
  {
    hide Allowance.Sound, Do, Can, Drops;
    if steps != [] {
      DecodedGrows(s, steps[0]);
      assert DecodesWithin(steps[0], largest);
      assert AllWithin(Do(s, steps[0]).inb.decoded, largest);
      hide AllWithin, DecodesWithin, JustDecoded;
      DecodedWithin(Do(s, steps[0]), steps[1..], largest);
    }
  }

  /** The coordinator carries a packet only while none waits, so at most one is uncharged. */
  lemma OneUncharged(s: State)
    requires Ordered(s) && InboundOrder(s) && !s.stopping
    ensures Uncharged(s) == [] || (|Uncharged(s)| == 1 && Uncharged(s)[0] in s.inb.decoded)
    ensures SlotWithCoordinator(s.work) || OutboundInFlight(s.work) ==> Carried(s.work) == []
    ensures SlotWithCoordinator(s.work) ==> Uncharged(s) == [] && !OutboundInFlight(s.work)
  {
    hide Numbered, Ended, AllCommitted, Ascending;
    assert Uncharged(s) != [] ==> Uncharged(s)[0] in Line(s);
  }

  /** What waits for a grant could one day be granted. */
  lemma WaitingWithin(s: State)
    requires Conserved(s) && Ordered(s) && Ceiling(s)
    ensures s.inb.pending.Some? ==> s.inb.pending.value.arrival.size <= s.cfg.maxBytes
  {
    if s.inb.pending.Some? {
      assert Claimant(s.budget, Stakes(s), PENDING);
      assert s.budget.SoundRequest(s.inb.pending.value.request);
    }
  }

  lemma HeldWithin(l: Limits, sink: bool, largest: nat, s: State)
    requires l.Valid() && largest <= l.decompressedBytes && l.bufferedBytes >= 2 * l.frameBytes + l.decompressedBytes
    requires Good(s) && s.cfg == l.StreamConfig(sink) && AllWithin(s.inb.decoded, largest)
    ensures FitsNow(l, s)
  {
    if !s.stopping {
      assert Safe(s) && InboundOrder(s) && Conserved(s) && Ordered(s) && Ceiling(s) && OneSlot(s);
      hide Good, Safe, InboundOrder, Conserved, Ordered;
      OneUncharged(s);
      WaitingWithin(s);
      hide Carried, OutboundInFlight, SlotWithCoordinator, PendingGranted;
      assert Uncharged(s) != [] ==> Sizes(Uncharged(s)) == Uncharged(s)[0].size;
    }
  }

  // ---- a run beyond them --------------------------------------------------------------------------

  /** The read pump starts on a frame, and the coordinator takes a write. */
  function BothWays(): seq<Step> {
    [OfPump(TakeSlot), OfCall(Enter), OfCall(NoticeGrant(0)), OfSelect(AcceptCall(0))]
  }

  lemma BothInFlight(l: Limits, s: State, sink: bool)
    requires l.Valid() && s == Init(l.StreamConfig(sink))
    ensures CanAll(s, BothWays())
    ensures
      var t := DoAll(s, BothWays());
      !t.stopping && t.budget.bytes == 0 && SlotWithReader(t) && OutboundInFlight(t.work)
  {
    hide Allowance.Sound, Reserve, New, CanAll, DoAll;
    EnterGranted(s.budget, s.cfg);
    var s2 := Do(Do(s, OfPump(TakeSlot)), OfCall(Enter));
    EnteredStarts(s2);
    hide Do, Can;
    FourSteps(s, BothWays());
  }

  lemma EnteredStarts(s: State)
    requires s.budget.Sound() && !s.stopping && s.budget.bytes == 0 && s.work == Select && s.inb.reader == Reading
    requires s.out.calls == [Call(Acquiring(0), Queued, None)] && |s.budget.requests| == 1
    requires s.budget.requests[0].ready && s.budget.requests[0].granted
    ensures Can(s, OfCall(NoticeGrant(0))) && Can(Do(s, OfCall(NoticeGrant(0))), OfSelect(AcceptCall(0)))
    ensures
      var t := Do(Do(s, OfCall(NoticeGrant(0))), OfSelect(AcceptCall(0)));
      !t.stopping && t.budget.bytes == 0 && SlotWithReader(t) && OutboundInFlight(t.work)
  {
    hide Allowance.Sound;
  }

  lemma EnterGranted(b: Allowance, cfg: Config)
    requires b == New(cfg.maxItems, cfg.maxBytes) && cfg.maxItems >= 1
    ensures b.Sound()
    ensures
      var (c, r) := Reserve(b, 1, 0);
      r == Ok(0) && |c.requests| == 1 && c.requests[0].ready && c.requests[0].granted && c.bytes == 0
  {
    ReserveAtOnce(b, 1, 0);
    hide Grant, Reserve;
  }

  /** With too small a buffer these few steps exceed it, and they decode no packet at all. */
  lemma BothExceed(l: Limits, s: State, sink: bool, largest: nat)
    requires l.Valid() && s == Init(l.StreamConfig(sink)) && l.bufferedBytes < 2 * l.frameBytes + l.decompressedBytes
    ensures !AlwaysFits(l, largest, s)
  {
    BothInFlight(l, s, sink);
    var t := DoAll(s, BothWays());
    assert NoneLarger(BothWays(), largest);
    hide CanAll, DoAll, BothWays, NoneLarger, Init, SlotWithReader, OutboundInFlight, Uncharged, SlotWithCoordinator;
    assert InUse(l, t) >= l.frameBytes + l.WorkingSet();
  }

  /**
   Accepted limits do not yet bound what a stream holds. While packets decode to no more
   than the decompressed limit it stays within its buffer, in every run before the stop,
   exactly when the buffer has room for one working set and one frame more: below that, a
   frame arriving while a packet leaves exceeds it.
   */
  lemma MemoryBounded(l: Limits, sink: bool, largest: nat)
    requires l.Valid() && largest <= l.decompressedBytes
    ensures AlwaysFits(l, largest, Init(l.StreamConfig(sink))) <==> l.bufferedBytes >= 2 * l.frameBytes + l.decompressedBytes
  {
    var cfg := l.StreamConfig(sink);
    var s := Init(cfg);
    if l.bufferedBytes >= 2 * l.frameBytes + l.decompressedBytes {
      forall steps | CanAll(s, steps) && NoneLarger(steps, largest) ensures FitsNow(l, DoAll(s, steps)) {
        hide CanAll, DoAll, FitsNow, Good, NoneLarger;
        EveryRunGood(cfg, steps);
        KeepsItsConfig(s, steps);
        DecodedWithin(s, steps, largest);
        HeldWithin(l, sink, largest, DoAll(s, steps));
      }
    } else {
      BothExceed(l, s, sink, largest);
    }
  }
}
