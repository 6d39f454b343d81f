/**
 What holds in every reachable state of the stream about its budget: it is conserved,
 it stays within its ceiling until the stream stops, no release ever returns more
 than is held, and a granted packet always finds room in the Read queue.
 */
module StreamSafety {
  import opened Wrappers
  import opened Budget
  import opened Stream
  import opened StreamBalance
  import opened StreamConservation

  // ---- what one mutex section may do to the budget -----------------------------------------

  predicate Within(b: Allowance) {
    b.items <= b.maxItems && b.bytes <= b.maxBytes
  }

  lemma {:induction false} GrantWithin(b: Allowance)
    requires b.Sound() && Within(b)
    ensures Within(Grant(b))
    decreases |b.queue|
  {
    if !b.HeadBlocked() {
      GrantWithin(GrantHead(b));
    }
  }

  lemma GrantFits(b: Allowance, i: nat)
    requires b.Sound() && i < |b.requests| && !b.requests[i].granted && Grant(b).requests[i].granted
    ensures Within(Grant(b))
  {
    if !b.HeadBlocked() {
      GrantWithin(GrantHead(b));
    }
  }

  /** How one step changes the budget, if it does not cancel request `spared` and does not charge. */
  ghost predicate Section(b: Allowance, c: Allowance, spared: Option<nat>) {
    && c.maxItems == b.maxItems && c.maxBytes == b.maxBytes
    && |b.requests| <= |c.requests|
    && (Within(b) ==> Within(c))
    && (forall i :: 0 <= i < |b.requests| && !b.requests[i].granted && c.requests[i].granted ==> Within(c))
    && (forall i :: |b.requests| <= i < |c.requests| && c.requests[i].granted ==> Within(c))
    && (spared.Some? && spared.value < |b.requests| && b.requests[spared.value].ready ==>
          c.requests[spared.value] == b.requests[spared.value])
  }

  lemma ReserveSection(b: Allowance, n: int, m: int, spared: Option<nat>)
    requires b.Sound()
    ensures Section(b, Reserve(b, n, m).0, spared)
    ensures Reserve(b, n, m).0.closed == b.closed
  {
    if Reserve(b, n, m).1.Ok? {
      var e := Enqueue(b, n, m);
      GrantKeepsClosed(e);
      if Within(b) { GrantWithin(e); }
      forall i | 0 <= i < |e.requests| && !e.requests[i].granted && Grant(e).requests[i].granted ensures Within(Grant(e)) {
        GrantFits(e, i);
      }
      if spared.Some? && spared.value < |b.requests| {
        GrantTouchesServed(e, spared.value);
        assert e.SoundRequest(spared.value);
      }
    }
  }

  lemma {:induction false} GrantKeepsClosed(b: Allowance)
    requires b.Sound()
    ensures Grant(b).closed == b.closed && Grant(b).maxItems == b.maxItems && Grant(b).maxBytes == b.maxBytes
    decreases |b.queue|
  {
    if !b.HeadBlocked() {
      GrantKeepsClosed(GrantHead(b));
    }
  }

  lemma RegrantSection(b: Allowance, d: Allowance, spared: Option<nat>)
    requires b.Sound() && d.Sound() && |d.requests| == |b.requests|
    requires d.maxItems == b.maxItems && d.maxBytes == b.maxBytes && d.items <= b.items && d.bytes <= b.bytes
    requires forall i :: 0 <= i < |b.requests| && d.requests[i].granted ==> b.requests[i].granted
    requires spared.Some? && spared.value < |b.requests| ==> d.requests[spared.value] == b.requests[spared.value]
    ensures Section(b, Grant(d), spared)
  {
    GrantKeepsClosed(d);
    if Within(b) { GrantWithin(d); }
    forall i | 0 <= i < |b.requests| && !b.requests[i].granted && Grant(d).requests[i].granted ensures Within(Grant(d)) {
      GrantFits(d, i);
    }
    if spared.Some? && spared.value < |b.requests| {
      GrantTouchesServed(d, spared.value);
      assert d.SoundRequest(spared.value);
    }
  }

  lemma ReleaseSection(b: Allowance, n: nat, m: nat, spared: Option<nat>)
    requires b.Sound()
    ensures Section(b, Release(b, n, m), spared)
    ensures Release(b, n, m).closed == b.closed
  {
    RegrantSection(b, Debit(b, n, m), spared);
    GrantKeepsClosed(Debit(b, n, m));
  }

  lemma CancelSection(b: Allowance, i: nat, spared: Option<nat>)
    requires b.Sound() && i < |b.requests| && spared != Some(i)
    requires b.requests[i].items >= 0 && b.requests[i].bytes >= 0
    ensures Section(b, Cancel(b, i), spared)
    ensures Cancel(b, i).closed == b.closed
  {
    if b.requests[i].granted {
      RegrantSection(b, Return(b, i), spared);
      GrantKeepsClosed(Return(b, i));
    }
  }

  lemma CloseSection(b: Allowance, cause: Option<StreamError>, spared: Option<nat>)
    requires b.Sound()
    ensures Section(b, Close(b, cause), spared)
  {
    var c := Close(b, cause);
    forall i | 0 <= i < |b.requests| && c.requests[i].granted ensures b.requests[i].granted {
      assert b.SoundRequest(i);
    }
  }

  lemma SameSection(b: Allowance, spared: Option<nat>)
    ensures Section(b, b, spared)
  {
  }

  /**
   Every change but a charge is one section: it grants nothing beyond the ceiling,
   and leaves alone a decided reservation that it does not itself cancel.
   */
  lemma ResultSection(b: Allowance, ks: seq<Stake>, c: Allowance, js: seq<Stake>, items: int, bytes: int, change: Change, spared: Option<nat>)
    requires b.Sound() && Covered(b, ks) && Accounts(b, ks, c, js, items, bytes, change) && !change.Charges?
    requires change.Cancels? ==> spared != Some(ks[change.at].request)
    ensures Section(b, c, spared)
    ensures !change.Closes? ==> c.closed == b.closed
  {
    match change {
      case Enters(n, m) => ReserveSection(b, n, m, spared);
      case Asks(_, n, m) => ReserveSection(b, n, m, spared);
      case Cancels(at) =>
        assert Claimant(b, ks, at) && b.SoundRequest(ks[at].request);
        CancelSection(b, ks[at].request, spared);
      case Refunds(at) => ReleaseSection(b, ks[at].items, ks[at].bytes, spared);
      case Returns(n, m) => ReleaseSection(b, n, m, spared);
      case Closes => CloseSection(b, None, spared);
      case _ => SameSection(b, spared);
    }
  }

  // ---- holders hold what they will release ------------------------------------------------------

  lemma {:induction false} StakeWithinSum(ks: seq<Stake>, rs: seq<Request>, at: nat)
    requires at < |ks|
    ensures StakeItems(ks[at], rs) <= SumItems(ks, rs) && StakeBytes(ks[at], rs) <= SumBytes(ks, rs)
  {
    if at < |ks| - 1 {
      StakeWithinSum(ks[..|ks| - 1], rs, at);
    }
  }

  lemma HeldIsCharged(s: State, at: nat)
    requires Conserved(s) && at < |Stakes(s)|
    ensures StakeItems(Stakes(s)[at], s.budget.requests) + QueuedItems(s) <= s.budget.items
    ensures StakeBytes(Stakes(s)[at], s.budget.requests) + QueuedBytes(s) <= s.budget.bytes
  {
    StakeWithinSum(Stakes(s), s.budget.requests, at);
  }

  lemma {:induction false} SizeWithin(items: seq<Arrival>, k: nat)
    requires k < |items|
    ensures items[k].size <= Sizes(items)
  {
    if k > 0 { SizeWithin(items[1..], k - 1); }
  }

  // ---- the coordinator's own order -----------------------------------------------------------------

  /** The coordinator is between taking a frame and queueing its packet. */
  predicate Arriving(work: Work) {
    match work
    case Observing(_, next) => next.DecodeNext? || next.QueueNext?
    case ObserveWait(_, _, next) => next.DecodeNext? || next.QueueNext?
    case ObserveSend(_, next) => next.DecodeNext? || next.QueueNext?
    case ObserveFailed(next) => next.DecodeNext? || next.QueueNext?
    case Decoding(_) => true
    case Queueing(_) => true
    case QueueRefused(_) => true
    case Charging(_, _) => true
    case HandingOver(_, _) => true
    case _ => false
  }

  predicate HandingOff(work: Work) {
    work.HandOff? || work.HandOffCancel? || work.HandOffSend?
  }

  predicate Ordered(s: State) {
    && (Arriving(s.work) ==> s.inb.pending.None?)
    && (s.work.SendingPending? || HandingOff(s.work) ==> s.inb.pending.Some?)
    && (s.work.SendingPending? || s.work.HandOffSend? ==> PendingGranted(s))
    && (s.work.Charging? || s.work.HandingOver? || HandingOff(s.work) ==> s.stopping)
    && (s.budget.closed.Some? ==> s.stopping)
  }

  /** The item and byte ceilings hold until the stream stops. */
  predicate Ceiling(s: State) {
    && s.budget.maxItems == s.cfg.maxItems && s.budget.maxBytes == s.cfg.maxBytes
    && (!s.stopping ==> Within(s.budget))
  }

  /** A packet whose capacity was granted has room in the Read queue. */
  predicate Room(s: State) {
    s.inb.pending.Some? && s.inb.pending.value.request < |s.budget.requests|
    && s.budget.requests[s.inb.pending.value.request].granted
    ==> |s.inb.queue| < s.cfg.maxItems
  }

  predicate SlotWithReader(s: State) {
    s.inb.reader == Reading || s.inb.reader == HoldingFrame
  }

  predicate SlotWithCoordinator(work: Work) {
    match work
    case Observing(_, next) => next.DecodeNext?
    case ObserveWait(_, _, next) => next.DecodeNext?
    case ObserveSend(_, next) => next.DecodeNext?
    case ObserveFailed(next) => next.DecodeNext?
    case Decoding(_) => true
    case _ => false
  }

  /** The processing token is in one place, and only a coordinator that died holding it loses it. */
  predicate OneSlot(s: State) {
    var n := (if s.inb.slot then 1 else 0) + (if SlotWithReader(s) then 1 else 0)
             + (if SlotWithCoordinator(s.work) then 1 else 0);
    n <= 1 && (n == 0 ==> s.work == Halted)
  }

  ghost predicate Safe(s: State) {
    Conserved(s) && Ordered(s) && Ceiling(s) && Room(s) && OneSlot(s)
  }

  // ---- no panic ---------------------------------------------------------------------------------------

  /** A step returns no more budget than is held, and returns the processing token only while it is out. */
  predicate NoPanic(s: State, step: Step)
    requires Can(s, step)
  {
    match step
    case OfCall(GiveUpOffering(_, _)) => s.budget.items >= 1
    case OfRead(ReturnCharge(k)) => s.budget.items >= 1 && s.budget.bytes >= s.inb.taken[k].size
    case OfPump(ReadFails(_)) => !s.inb.slot
    case OfPump(ReaderStops) => s.inb.reader == HoldingFrame ==> !s.inb.slot
    case OfObserve(StopSending) => s.budget.items >= 1 && s.budget.bytes >= s.work.record.input.bytes
    case OfArrival(Decode(_)) => !s.inb.slot
    case OfArrival(HandOver) =>
      |s.inb.queue| >= s.cfg.maxItems ==> s.budget.items >= 1 && s.budget.bytes >= s.work.arrival.size
    case OfWrite(ReleaseCall) => s.budget.items >= 1
    case OfDispatch(Deliver(_)) => s.budget.items >= 1 && s.budget.bytes >= s.rec.dispatcher.record.input.bytes
    case _ => true
  }

  lemma SafeNeverPanics(s: State, step: Step)
    requires Safe(s) && Can(s, step)
    ensures NoPanic(s, step)
  {
    match step {
      case OfCall(GiveUpOffering(w, _)) => HeldIsCharged(s, CALLS + w);
      case OfRead(ReturnCharge(k)) => HeldIsCharged(s, TURN); SizeWithin(s.inb.taken, k);
      case OfObserve(StopSending) => HeldIsCharged(s, WORK);
      case OfArrival(HandOver) => HeldIsCharged(s, WORK);
      case OfWrite(ReleaseCall) => HeldIsCharged(s, TURN);
      case OfDispatch(Deliver(_)) => HeldIsCharged(s, DISPATCHER);
      case _ =>
    }
  }

  /** A granted packet can be sent at once, so the blocking branch behind it is never taken. */
  lemma GrantedSendNeverBlocks(s: State)
    requires Safe(s) && s.work == SendingPending
    ensures Can(s, OfArrival(SendPending)) && !Can(s, OfArrival(SendStopped))
  {
  }
}
