/**
 A decoded packet may be longer than the decompressed limit when frames carry no
 compression envelope: it may then be as long as a frame. This is the exact bound on
 what a stream that records nothing holds, whatever the longest packet is.
 */
module StreamCapacity {
  import opened Wrappers
  import opened Budget
  import opened Stream
  import opened StreamBalance
  import opened StreamConservation
  import opened StreamSafety
  import opened StreamSafe
  import opened StreamInbound
  import opened StreamDrops
  import opened StreamWrites
  import opened StreamRecords
  import opened StreamTheorems
  import opened StreamMemory

  function Min(a: nat, b: nat): nat {
    if a <= b then a else b
  }

  /** The longest packet the budget accepts. */
  function Longest(l: Limits, largest: nat): nat {
    Min(largest, l.StreamConfig(false).maxBytes)
  }

  /** The most the queued packets can be charged. */
  function MostQueued(l: Limits, largest: nat): nat {
    Min(l.StreamConfig(false).maxBytes, l.queueItems * Longest(l, largest))
  }

  // ---- nothing is recorded ---------------------------------------------------------------------

  predicate Unrecorded(s: State) {
    && !s.cfg.sink && s.rec.channel == [] && s.rec.dispatcher == DispatcherHalted
    && !s.work.ObserveWait? && !s.work.ObserveSend?
  }

  lemma ObserveUnrecorded(s: State, step: ObserveStep)
    requires s.budget.Sound() && Unrecorded(s) && CanObserve(s, step)
    ensures Unrecorded(DoObserve(s, step)) && DoObserve(s, step).inb == s.inb
  {
    hide Reserve, Release, Cancel, Close, Allowance.Sound;
  }

  lemma ArrivalUnrecorded(s: State, step: ArrivalStep)
    requires s.budget.Sound() && Unrecorded(s) && CanArrival(s, step)
    ensures Unrecorded(DoArrival(s, step)) && DoArrival(s, step).inb.taken == s.inb.taken
  {
    hide Reserve, Release, Cancel, Close, Allowance.Sound;
  }

  lemma WriteUnrecorded(s: State, step: WriteStep)
    requires s.budget.Sound() && Unrecorded(s) && CanWrite(s, step)
    ensures Unrecorded(DoWrite(s, step)) && DoWrite(s, step).inb == s.inb
  {
    hide Reserve, Release, Cancel, Close, Allowance.Sound;
  }

  /** Nothing is ever recorded without a sink, and only a Read takes packets from the queue. */
  lemma StaysUnrecorded(s: State, step: Step)
    requires s.budget.Sound() && Unrecorded(s) && Can(s, step)
    ensures Unrecorded(Do(s, step))
    ensures step.OfRead? || Do(s, step).inb.taken == s.inb.taken
  {
    hide Reserve, Release, Cancel, Close, Allowance.Sound;
    match step {
      case OfCall(c) => CallLeaves(s, c); KeepsConfig(s, step); hide DoCall;
      case OfObserve(o) => ObserveUnrecorded(s, o); hide DoObserve;
      case OfArrival(a) => ArrivalUnrecorded(s, a); hide DoArrival;
      case OfWrite(w) => WriteUnrecorded(s, w); hide DoWrite;
      case _ =>
    }
  }

  // ---- each packet is short ----------------------------------------------------------------------

  lemma TakenWithin(s: State, step: ReadStep, largest: nat)
    requires s.budget.Sound() && InboundOrder(s) && CanRead(s, step)
    requires AllWithin(s.inb.decoded, largest) && AllWithin(s.inb.taken, largest)
    ensures AllWithin(DoRead(s, step).inb.taken, largest)
  {
    hide Release, Allowance.Sound, Ascending, Numbered, Ended, AllCommitted;
    if step.Take? {
      assert Line(s)[|s.inb.received|] == s.inb.queue[0];
    }
  }

  /** The invariant of a run that records nothing and decodes nothing longer than `largest`. */
  ghost predicate Short(s: State, largest: nat) {
    Safe(s) && InboundOrder(s) && Unrecorded(s) && AllWithin(s.inb.decoded, largest) && AllWithin(s.inb.taken, largest)
  }

  lemma StepShort(s: State, step: Step, largest: nat)
    requires Short(s, largest) && Can(s, step) && DecodesWithin(step, largest)
    ensures Short(Do(s, step), largest)
  {
    assert s.budget.Sound();
    hide Allowance.Sound, DoRead, CanRead, Drops, Safe, InboundOrder, Unrecorded;
    DecodedGrows(s, step);
    assert AllWithin(Do(s, step).inb.decoded, largest);
    StaysUnrecorded(s, step);
    if step.OfRead? { TakenWithin(s, step.read, largest); }
    hide AllWithin, DecodesWithin, JustDecoded, Do, Can;
    StepSafe(s, step);
    StepOrder(s, step);
  }

  lemma {:induction false} StaysShort(s: State, steps: seq<Step>, largest: nat)
    requires Short(s, largest) && CanAll(s, steps) && NoneLarger(steps, largest)
    ensures Short(DoAll(s, steps), largest)
    decreases |steps|
  {
    assert s.budget.Sound();
    hide Short, Do, Can, DecodesWithin, Allowance.Sound;
    if steps != [] {
      StepShort(s, steps[0], largest);
      StaysShort(Do(s, steps[0]), steps[1..], largest);
    }
  }

  // ---- what the items can be charged ---------------------------------------------------------------

  predicate Priced(k: Stake, rs: seq<Request>, most: nat) {
    StakeBytes(k, rs) <= most * StakeItems(k, rs)
  }

  lemma {:induction false} SumPriced(ks: seq<Stake>, rs: seq<Request>, most: nat)
    requires forall i :: 0 <= i < |ks| ==> Priced(ks[i], rs, most)
    ensures SumBytes(ks, rs) <= most * SumItems(ks, rs)
  {
    hide StakeItems, StakeBytes;
    if ks != [] {
      var n := |ks| - 1;
      SumPriced(ks[..n], rs, most);
      assert Priced(ks[n], rs, most);
    }
  }

  lemma {:induction false} SizesPriced(items: seq<Arrival>, most: nat)
    requires AllWithin(items, most)
    ensures Sizes(items) <= most * |items|
  {
    if items != [] {
      SizesPriced(items[1..], most);
    }
  }

  lemma CallsPriced(s: State, most: nat)
    ensures forall i :: CALLS <= i < |Stakes(s)| ==> Priced(Stakes(s)[i], s.budget.requests, most)
  {
    forall i | CALLS <= i < |Stakes(s)| ensures Priced(Stakes(s)[i], s.budget.requests, most) {
      assert Stakes(s)[i] == CallStake(s.out.calls[i - CALLS]);
    }
  }

  lemma ArrivalPriced(a: Arrival, request: nat, rs: seq<Request>, most: nat)
    requires a.size <= most
    ensures Priced(Claim(request, 1, a.size), rs, most)
  {
  }

  /** Before the stop, no holder is charged for a packet longer than both bounds allow. */
  lemma StakesPriced(s: State, largest: nat, most: nat)
    requires Short(s, largest) && !s.stopping && most == Min(largest, s.cfg.maxBytes)
    ensures forall i :: 0 <= i < |Stakes(s)| ==> Priced(Stakes(s)[i], s.budget.requests, most)
  {
    WaitingWithin(s);
    CallsPriced(s, most);
    var rs := s.budget.requests;
    assert s.inb.pending.Some? ==> s.inb.pending.value.arrival in Line(s);
    assert s.inb.pending.Some? ==> s.inb.pending.value.arrival.size <= most;
    assert Ordered(s) && Unrecorded(s);
    hide Short, Line, AllWithin;
    if s.inb.pending.Some? { ArrivalPriced(s.inb.pending.value.arrival, s.inb.pending.value.request, rs, most); }
    assert Priced(TurnStake(s.work), rs, most) && Priced(WorkStake(s.work), rs, most);
    assert Priced(PendingStake(s.inb.pending), rs, most) && Priced(DispatcherStake(s.rec.dispatcher), rs, most);
  }

  lemma QueuesPriced(s: State, largest: nat, most: nat)
    requires Short(s, largest) && !s.stopping && most == Min(largest, s.cfg.maxBytes)
    ensures AllWithin(s.inb.queue, most) && AllWithin(s.inb.taken, most)
  {
    HeldIsCharged(s, TURN);
    forall k | 0 <= k < |s.inb.queue| ensures s.inb.queue[k].size <= most {
      SizeWithin(s.inb.queue, k);
      assert Line(s)[|s.inb.received| + k] == s.inb.queue[k];
    }
    forall k | 0 <= k < |s.inb.taken| ensures s.inb.taken[k].size <= most {
      SizeWithin(s.inb.taken, k);
    }
  }

  lemma ChargedWithin(s: State, largest: nat, most: nat)
    requires Short(s, largest) && !s.stopping && most == Min(largest, s.cfg.maxBytes)
    ensures s.budget.bytes <= s.cfg.maxBytes && s.budget.bytes <= most * s.cfg.maxItems
  {
    StakesPriced(s, largest, most);
    QueuesPriced(s, largest, most);
    SumPriced(Stakes(s), s.budget.requests, most);
    SizesPriced(s.inb.queue, most);
    SizesPriced(s.inb.taken, most);
    assert Ceiling(s) && Unrecorded(s) && Conserved(s);
    Product(SumItems(Stakes(s), s.budget.requests), |s.inb.queue|, |s.inb.taken|, s.budget.items, s.cfg.maxItems, most);
  }

  lemma Product(a: nat, b: nat, c: nat, items: int, maxItems: nat, most: nat)
    requires a + b + c == items <= maxItems
    ensures most * a + most * b + most * c <= most * maxItems
  {
    assert most * a + most * b + most * c == most * items;
  }

  /** The buffer covers a working set and a frame, and what waits fits beside what the queues can be charged. */
  predicate Enough(l: Limits, largest: nat) {
    && l.bufferedBytes >= 2 * l.frameBytes + l.decompressedBytes
    && MostQueued(l, largest) + Longest(l, largest) <= l.StreamConfig(false).maxBytes + l.decompressedBytes
  }

  lemma ShortFits(l: Limits, largest: nat, s: State)
    requires l.Valid() && largest <= l.WorkingSet() && Enough(l, largest)
    requires Short(s, largest) && s.cfg == l.StreamConfig(false)
    ensures FitsNow(l, s)
  {
    if !s.stopping {
      ChargedWithin(s, largest, Longest(l, largest));
      OneUncharged(s);
      WaitingWithin(s);
      assert OneSlot(s) && AllWithin(s.inb.decoded, largest);
      hide Short, Carried, OutboundInFlight, SlotWithCoordinator, PendingGranted;
      assert Uncharged(s) != [] ==> Sizes(Uncharged(s)) == Uncharged(s)[0].size;
    }
  }

  // ---- filling the queue ------------------------------------------------------------------------------

  /** So many items and bytes are held, by packets in the Read queue, and nobody waits. */
  predicate Filled(s: State, items: nat, bytes: nat) {
    && s.work == Select && s.inb.pending.None? && s.inb.reader == Parked && s.inb.slot && !s.cfg.sink && !s.stopping
    && |s.inb.queue| == items
    && s.budget.closed.None? && s.budget.queue == [] && s.budget.items == items && s.budget.bytes == bytes
    && s.budget.maxItems == s.cfg.maxItems && s.budget.maxBytes == s.cfg.maxBytes
  }

  function SendSteps(): seq<Step> {
    [OfSelect(NoticePending), OfArrival(SendPending)]
  }

  function PacketSteps(size: nat): seq<Step> {
    (ReadSteps() + QueueSteps(size)) + SendSteps()
  }

  lemma SendOne(a: State, items: nat)
    requires a.budget.Sound() && a.work == Select && a.inb.pending.Some? && |a.inb.queue| == items < a.cfg.maxItems
    requires a.inb.pending.value.request < |a.budget.requests|
    requires a.budget.requests[a.inb.pending.value.request].ready && a.budget.requests[a.inb.pending.value.request].granted
    ensures CanAll(a, SendSteps())
    ensures DoAll(a, SendSteps()) == a.(inb := a.inb.(queue := a.inb.queue + [a.inb.pending.value.arrival], pending := None))
  {
    hide Allowance.Sound;
    var b := Do(a, OfSelect(NoticePending));
    assert Can(b, OfArrival(SendPending));
    One(b, OfArrival(SendPending));
    assert SendSteps()[1..] == [OfArrival(SendPending)];
  }

  lemma GrantedAtOnce(b: Allowance, size: nat)
    requires b.Valid() && b.closed.None? && b.queue == [] && b.items >= 0 && b.bytes >= 0
    requires b.items + 1 <= b.maxItems && b.bytes + size <= b.maxBytes
    ensures
      var c := Reserve(b, 1, size).0;
      && c.Valid() && c.closed.None? && c.queue == [] && c.items == b.items + 1 && c.bytes == b.bytes + size
      && c.maxItems == b.maxItems && c.maxBytes == b.maxBytes
      && |c.requests| == |b.requests| + 1 && c.requests[|b.requests|].ready && c.requests[|b.requests|].granted
  {
    ReserveAtOnce(b, 1, size);
    OpKeepsValid(b, DoReserve(1, size));
    hide Grant, Reserve;
  }

  /** A packet that fits is queued. */
  lemma PacketFills(s: State, items: nat, bytes: nat, size: nat, largest: nat) returns (t: State)
    requires Filled(s, items, bytes) && s.budget.Valid() && items < s.cfg.maxItems && bytes + size <= s.cfg.maxBytes
    requires size <= largest
    ensures Leads(s, PacketSteps(size), largest, t) && Filled(t, items + 1, bytes + size) && t.cfg == s.cfg && t.budget.Valid()
  {
    GrantedAtOnce(s.budget, size);
    hide Allowance.Sound, Reserve, CanAll, DoAll, SendSteps;
    var a := Arrived(s, size);
    Arrive(s, size);
    SendOne(a, items);
    t := DoAll(a, SendSteps());
    PacketNoneLarger(size, largest);
    hide ReadSteps, QueueSteps;
    Then(s, ReadSteps() + QueueSteps(size), SendSteps());
  }

  lemma PacketNoneLarger(size: nat, largest: nat)
    requires size <= largest
    ensures NoneLarger(PacketSteps(size), largest)
  {
  }

  /** The run can be made from `s`, decodes nothing longer than `largest`, and ends in `t`. */
  predicate Leads(s: State, steps: seq<Step>, largest: nat, t: State)
    requires s.budget.Sound()
  {
    CanAll(s, steps) && NoneLarger(steps, largest) && DoAll(s, steps) == t
  }

  lemma LeadsOn(s: State, first: seq<Step>, t: State, second: seq<Step>, u: State, largest: nat)
    requires s.budget.Sound() && t.budget.Sound() && Leads(s, first, largest, t) && Leads(t, second, largest, u)
    ensures Leads(s, first + second, largest, u)
  {
    hide CanAll, DoAll, Allowance.Sound;
    Then(s, first, second);
  }

  predicate FilledTo(cfg: Config, items: nat, most: nat, bytes: nat) {
    Min(cfg.maxBytes, items * most) <= bytes
  }

  /** Packets are queued until no item, or no byte, is left. */
  lemma {:induction false} Fill(s: State, items: nat, bytes: nat, most: nat, largest: nat)
    returns (steps: seq<Step>, t: State, n: nat, m: nat)
    requires Filled(s, items, bytes) && s.budget.Valid() && items <= s.cfg.maxItems && bytes <= s.cfg.maxBytes
    requires 0 < most <= largest && FilledTo(s.cfg, items, most, bytes)
    ensures Leads(s, steps, largest, t) && Filled(t, n, m) && t.budget.Valid() && t.cfg == s.cfg
    ensures (n == s.cfg.maxItems || m == s.cfg.maxBytes) && FilledTo(s.cfg, s.cfg.maxItems, most, m)
    decreases s.cfg.maxItems - items
  {
    assert s.budget.Sound();
    hide *;
    if items == s.cfg.maxItems || bytes == s.cfg.maxBytes {
      NoSteps(s, largest);
      FullAlready(s.cfg, items, bytes, most);
      steps, t, n, m := [], s, items, bytes;
    } else {
      var size := Min(most, s.cfg.maxBytes - bytes);
      NextSize(s.cfg, items, bytes, most, size);
      var u := PacketFills(s, items, bytes, size, largest);
      var more;
      more, t, n, m := Fill(u, items + 1, bytes + size, most, largest);
      steps := PacketSteps(size) + more;
      LeadsOn(s, PacketSteps(size), u, more, t, largest);
    }
  }

  lemma NextSize(cfg: Config, items: nat, bytes: nat, most: nat, size: nat)
    requires bytes < cfg.maxBytes && size == Min(most, cfg.maxBytes - bytes) && FilledTo(cfg, items, most, bytes)
    ensures bytes + size <= cfg.maxBytes && size <= most && FilledTo(cfg, items + 1, most, bytes + size)
  {
  }

  lemma FullAlready(cfg: Config, items: nat, bytes: nat, most: nat)
    requires FilledTo(cfg, items, most, bytes) && bytes <= cfg.maxBytes && (items == cfg.maxItems || bytes == cfg.maxBytes)
    ensures FilledTo(cfg, cfg.maxItems, most, bytes)
  {
  }

  lemma NoSteps(s: State, largest: nat)
    requires s.budget.Sound()
    ensures Leads(s, [], largest, s)
  {
  }

  // ---- and one packet more -------------------------------------------------------------------------------

  /** The next frame is being read while the disconnect is being framed. */
  function LeaveSteps(): seq<Step> {
    [OfPump(TakeSlot), OfSelect(AcceptShutdown), OfWrite(BuildGoodbye(true, true))]
  }

  lemma LastWaits(b: Allowance, items: nat, bytes: nat, size: nat)
    requires b.Valid() && b.closed.None? && b.queue == [] && b.items == items && b.bytes == bytes
    requires 0 < size <= b.maxBytes && b.maxItems >= 1 && (items == b.maxItems || bytes == b.maxBytes)
    ensures
      var c := Reserve(b, 1, size).0;
      c.Sound() && c.bytes == bytes && |c.requests| == |b.requests| + 1 && !c.requests[|b.requests|].granted
  {
    ReserveWaits(b, 1, size);
    hide Grant, Reserve;
  }

  lemma LastExceeds(l: Limits, s: State, items: nat, bytes: nat, size: nat, largest: nat) returns (steps: seq<Step>, t: State)
    requires l.Valid() && s.cfg == l.StreamConfig(false) && Filled(s, items, bytes) && s.budget.Valid()
    requires 0 < size <= s.cfg.maxBytes && size <= largest && (items == s.cfg.maxItems || bytes == s.cfg.maxBytes)
    requires bytes + size > s.cfg.maxBytes + l.decompressedBytes && s.cfg.maxBytes > 0
    ensures Leads(s, steps, largest, t) && !FitsNow(l, t)
  {
    LastWaits(s.budget, items, bytes, size);
    hide Allowance.Sound, Reserve, CanAll, DoAll, FitsNow, ReadSteps, QueueSteps, LeaveSteps, NoneLarger;
    var a := Arrived(s, size);
    Arrive(s, size);
    t := Left(a);
    LastTooMuch(l, a, size);
    LastNoneLarger(size, largest);
    LeaveRuns(a);
    hide Arrived, Filled, Left;
    steps := (ReadSteps() + QueueSteps(size)) + LeaveSteps();
    LeadsOn(s, ReadSteps() + QueueSteps(size), a, LeaveSteps(), t, largest);
  }

  function Left(a: State): State {
    a.(inb := a.inb.(reader := Reading, slot := false), frames := a.frames + 1, work := GoodbyeHanding(a.frames + 1))
  }

  lemma LastTooMuch(l: Limits, a: State, size: nat)
    requires l.Valid() && a.cfg == l.StreamConfig(false) && !a.stopping && a.cfg.maxBytes > 0
    requires a.inb.pending.Some? && a.inb.pending.value.arrival.size == size
    requires a.inb.pending.value.request < |a.budget.requests| && !a.budget.requests[a.inb.pending.value.request].granted
    requires a.budget.bytes + size > a.cfg.maxBytes + l.decompressedBytes
    ensures !FitsNow(l, Left(a))
  {
    assert Uncharged(Left(a)) == [a.inb.pending.value.arrival];
  }

  lemma LastNoneLarger(size: nat, largest: nat)
    requires size <= largest
    ensures NoneLarger(ReadSteps() + QueueSteps(size), largest) && NoneLarger(LeaveSteps(), largest)
  {
  }

  lemma LeaveRuns(a: State)
    requires a.budget.Sound() && a.work == Select && a.inb.reader == Parked && a.inb.slot
    ensures CanAll(a, LeaveSteps()) && DoAll(a, LeaveSteps()) == Left(a)
  {
    hide Allowance.Sound, CanAll, DoAll;
    var b := Do(a, OfPump(TakeSlot));
    var c := Do(b, OfSelect(AcceptShutdown));
    assert Do(c, OfWrite(BuildGoodbye(true, true))) == Left(a);
    hide Do, Can;
    ThreeSteps(a, LeaveSteps());
  }

  lemma StartsFilled(l: Limits)
    requires l.Valid()
    ensures Filled(Init(l.StreamConfig(false)), 0, 0) && Init(l.StreamConfig(false)).budget.Valid()
    ensures Short(Init(l.StreamConfig(false)), 0)
  {
    InitSafe(l.StreamConfig(false));
    InitOrder(l.StreamConfig(false));
  }

  lemma LongExceed(l: Limits, s: State, largest: nat)
    requires l.Valid() && s == Init(l.StreamConfig(false)) && !Enough(l, largest)
    requires l.bufferedBytes >= 2 * l.frameBytes + l.decompressedBytes
    ensures !AlwaysFits(l, largest, s)
  {
    StartsFilled(l);
    hide Init, Filled, Allowance.Sound, FitsNow, Short, AlwaysFits, Leads;
    var most := Longest(l, largest);
    assert s.budget.Sound() && s.cfg == l.StreamConfig(false);
    var steps, t, n, m := Fill(s, 0, 0, most, largest);
    var rest, u := LastExceeds(l, t, n, m, most, largest);
    LeadsOn(s, steps, t, rest, u, largest);
    Refutes(l, s, steps + rest, largest, u);
  }

  lemma Refutes(l: Limits, s: State, steps: seq<Step>, largest: nat, t: State)
    requires s.budget.Sound() && Leads(s, steps, largest, t) && !FitsNow(l, t)
    ensures !AlwaysFits(l, largest, s)
  {
    hide CanAll, DoAll, NoneLarger, Allowance.Sound, FitsNow;
  }

  /**
   The exact condition for packets of any length up to a working set, with no sink: room
   for a working set and a frame, and for the longest packet waiting beside full queues.
   The second holds by itself for packets within the decompressed limit; packets of frames
   without an envelope may be longer, and then need more room than a stream reserves.
   */
  lemma LongPacketsBounded(l: Limits, largest: nat)
    requires l.Valid() && largest <= l.WorkingSet()
    ensures AlwaysFits(l, largest, Init(l.StreamConfig(false))) <==> Enough(l, largest)
  {
    var cfg := l.StreamConfig(false);
    var s := Init(cfg);
    StartsFilled(l);
    hide CanAll, DoAll, FitsNow, NoneLarger, Init;
    if l.bufferedBytes < 2 * l.frameBytes + l.decompressedBytes {
      BothExceed(l, s, false, largest);
    } else if !Enough(l, largest) {
      LongExceed(l, s, largest);
    } else {
      assert Short(s, largest);
      forall steps | CanAll(s, steps) && NoneLarger(steps, largest) ensures FitsNow(l, DoAll(s, steps)) {
        hide Short, Enough;
        StaysShort(s, steps, largest);
        KeepsItsConfig(s, steps);
        ShortFits(l, largest, DoAll(s, steps));
      }
    }
  }

  // ---- the channels ---------------------------------------------------------------------------

  /** Neither channel holds more than it was made for, stopping or not. */
  predicate ChannelsFit(s: State) {
    |s.inb.queue| <= s.cfg.maxItems && |s.rec.channel| <= s.cfg.maxItems
  }

  lemma StepChannels(s: State, step: Step)
    requires s.budget.Sound() && Can(s, step) && ChannelsFit(s)
    ensures ChannelsFit(Do(s, step)) && Do(s, step).cfg == s.cfg
  {
    hide Release, Close, Allowance.Sound, DoCall, DoObserve, DoArrival, DoWrite;
    match step {
      case OfCall(c) => CallLeaves(s, c); CallKeepsConfig(s, c);
      case OfObserve(o) => ObserveChannels(s, o); hide ChannelsFit;
      case OfArrival(a) => ArrivalChannels(s, a); hide ChannelsFit;
      case OfWrite(w) => WriteLeavesInbound(s, w); WriteKeepsRecords(s, w);
      case _ =>
    }
  }

  lemma CallKeepsConfig(s: State, step: CallStep)
    requires s.budget.Sound() && CanCall(s, step)
    ensures DoCall(s, step).cfg == s.cfg
  {
    hide Reserve, Release, Cancel, Allowance.Sound;
  }

  lemma ObserveChannels(s: State, step: ObserveStep)
    requires s.budget.Sound() && CanObserve(s, step) && ChannelsFit(s)
    ensures ChannelsFit(DoObserve(s, step)) && DoObserve(s, step).cfg == s.cfg
  {
    hide Reserve, Release, Cancel, Allowance.Sound;
  }

  lemma ArrivalChannels(s: State, step: ArrivalStep)
    requires s.budget.Sound() && CanArrival(s, step) && ChannelsFit(s)
    ensures ChannelsFit(DoArrival(s, step)) && DoArrival(s, step).cfg == s.cfg
  {
    hide Reserve, Release, Cancel, Charge, Allowance.Sound;
  }

  lemma WriteKeepsRecords(s: State, step: WriteStep)
    requires s.budget.Sound() && CanWrite(s, step)
    ensures DoWrite(s, step).rec == s.rec && DoWrite(s, step).cfg == s.cfg
  {
    hide Release, Allowance.Sound;
  }

  /** Before and after the stop, the Read queue and the record channel keep to the item bound. */
  lemma {:induction false} RunChannels(s: State, steps: seq<Step>)
    requires s.budget.Sound() && CanAll(s, steps) && ChannelsFit(s)
    ensures ChannelsFit(DoAll(s, steps)) && DoAll(s, steps).cfg == s.cfg
    decreases |steps|
  {
    hide Do, Can, ChannelsFit, Allowance.Sound;
    if steps != [] {
      StepChannels(s, steps[0]);
      RunChannels(Do(s, steps[0]), steps[1..]);
    }
  }

  /** In every run, stopped or not, neither the Read queue nor the record channel holds more than the item bound. */
  lemma ChannelsBounded(cfg: Config, steps: seq<Step>)
    requires CanAll(Init(cfg), steps)
    ensures
      var s := DoAll(Init(cfg), steps);
      |s.inb.queue| <= cfg.maxItems && |s.rec.channel| <= cfg.maxItems
  {
    hide CanAll, DoAll;
    RunChannels(Init(cfg), steps);
  }
}
