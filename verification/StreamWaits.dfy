/**
 When a record waits for ever (observation.go). The coordinator asks for the record's capacity
 while it holds the capacity of a call, and of a packet that waits to be delivered, and returns
 neither before the record is made. So the record can be made exactly when all of it fits the
 budget together; when it does not, only a stop frees the coordinator.
 */
module StreamWaits {
  import opened Wrappers
  import opened Budget
  import opened Stream
  import opened StreamBalance
  import opened StreamConservation
  import opened StreamSafety
  import opened StreamSafe
  import opened StreamInbound
  import opened StreamWrites
  import opened StreamRecords
  import opened StreamStops
  import opened StreamTheorems
  import opened StreamEnds
  import opened StreamFrames

  // ---- the line for capacity ----------------------------------------------------------------

  /** Until the stop nobody waits who could be served, and a packet asks before the records made while it waits. */
  ghost predicate LineFine(s: State) {
    && s.budget.Sound()
    && (!s.stopping ==> s.budget.HeadBlocked())
    && (s.work.ObserveWait? ==> s.cfg.sink)
    && PacketFirst(s)
  }

  predicate PacketFirst(s: State) {
    s.work.ObserveWait? && s.inb.pending.Some? ==> s.inb.pending.value.request < s.work.request
  }

  /** Whoever asks, asks for one item. */
  lemma ClaimsAreOne(s: State)
    ensures forall i :: 0 <= i < |Stakes(s)| && Stakes(s)[i].Claim? ==> Stakes(s)[i].items == 1
  {
    forall i | 0 <= i < |Stakes(s)| && Stakes(s)[i].Claim? ensures Stakes(s)[i].items == 1 {
      if i >= CALLS { assert Stakes(s)[i] == CallStake(s.out.calls[i - CALLS]); }
    }
  }

  lemma QueuedIsOne(b: Allowance, ks: seq<Stake>, q: nat)
    requires Covered(b, ks) && q < |b.queue| && forall i :: 0 <= i < |ks| && ks[i].Claim? ==> ks[i].items == 1
    ensures b.queue[q] < |b.requests| && b.requests[b.queue[q]].items == 1
  {
    assert Claimed(ks, b.queue[q]);
    var i :| 0 <= i < |ks| && Claims(ks[i], b.queue[q]);
    assert Claimant(b, ks, i);
  }

  /** A call that gives up waiting asked for no bytes: if it did not fit, nobody behind it does. */
  lemma CancelStaysBlocked(b: Allowance, ks: seq<Stake>, i: nat)
    requires b.Sound() && Covered(b, ks) && Within(b) && b.HeadBlocked()
    requires forall i :: 0 <= i < |ks| && ks[i].Claim? ==> ks[i].items == 1
    requires i < |b.requests| && b.requests[i].items == 1 && b.requests[i].bytes == 0
    ensures Cancel(b, i).Sound() && Cancel(b, i).HeadBlocked()
  {
    if !b.requests[i].granted && i in b.queue && b.queue[0] == i && |b.queue| > 1 {
      QueuedIsOne(b, ks, 1);
      assert b.queue[0] != b.queue[1];
    }
  }

  /** Nobody takes capacity without asking, and only calls give up waiting. */
  predicate Gentle(change: Change) {
    !change.Charges? && !change.Closes? && (change.Cancels? ==> CALLS <= change.at)
  }

  lemma CancelChange(s: State, t: State, at: nat)
    requires Safe(s) && !s.stopping && s.budget.HeadBlocked() && Effect(s, t, Cancels(at)) && CALLS <= at
    ensures t.budget.Sound() && t.budget.HeadBlocked()
  {
    assert s.budget.Sound() && Covered(s.budget, Stakes(s)) && Within(s.budget);
    ClaimsAreOne(s);
    assert Claimant(s.budget, Stakes(s), at) && Stakes(s)[at] == CallStake(s.out.calls[at - CALLS]);
    hide Safe, Covered, Allowance.Sound, Allowance.HeadBlocked, Stakes, Cancel;
    CancelStaysBlocked(s.budget, Stakes(s), Stakes(s)[at].request);
  }

  lemma ChangeStaysBlocked(s: State, t: State, change: Change)
    requires Safe(s) && !s.stopping && s.budget.HeadBlocked() && Effect(s, t, change) && Gentle(change)
    ensures t.budget.Sound() && t.budget.HeadBlocked()
  {
    assert s.budget.Sound();
    if change.Cancels? {
      CancelChange(s, t, change.at);
    } else {
      hide Safe, Allowance.Sound, Allowance.HeadBlocked, Stakes;
    }
  }

  lemma ObserveGentle(s: State, step: ObserveStep)
    requires CanObserve(s, step) && !s.stopping
    ensures Gentle(ObserveChange(s, step))
  {
  }

  lemma ArrivalGentle(s: State, step: ArrivalStep)
    requires CanArrival(s, step) && Ordered(s) && !s.stopping
    ensures Gentle(ArrivalChange(s, step))
  {
  }

  lemma CallStaysBlocked(s: State, step: CallStep)
    requires Safe(s) && CanCall(s, step) && !s.stopping && s.budget.HeadBlocked()
    ensures DoCall(s, step).budget.HeadBlocked()
  {
    hide Effect, DoCall, CanCall, Allowance.Sound, Allowance.HeadBlocked;
    CallEffect(s, step);
    ChangeStaysBlocked(s, DoCall(s, step), CallChange(step));
  }

  lemma ReadStaysBlocked(s: State, step: ReadStep)
    requires Safe(s) && CanRead(s, step) && !s.stopping && s.budget.HeadBlocked()
    ensures DoRead(s, step).budget.HeadBlocked()
  {
    hide Effect, DoRead, CanRead, Allowance.Sound, Allowance.HeadBlocked;
    ReadEffect(s, step);
    ChangeStaysBlocked(s, DoRead(s, step), ReadChange(s, step));
  }

  lemma SelectStaysBlocked(s: State, step: SelectStep)
    requires Safe(s) && CanSelect(s, step) && !s.stopping && s.budget.HeadBlocked()
    ensures DoSelect(s, step).budget.HeadBlocked()
  {
    hide Effect, DoSelect, CanSelect, Allowance.Sound, Allowance.HeadBlocked;
    SelectEffect(s, step);
    ChangeStaysBlocked(s, DoSelect(s, step), SelectChange(step));
  }

  lemma ObserveStaysBlocked(s: State, step: ObserveStep)
    requires Safe(s) && CanObserve(s, step) && !s.stopping && s.budget.HeadBlocked()
    ensures DoObserve(s, step).budget.HeadBlocked()
  {
    ObserveGentle(s, step);
    hide Effect, DoObserve, CanObserve, ObserveChange, Gentle, Allowance.Sound, Allowance.HeadBlocked;
    ObserveEffect(s, step);
    ChangeStaysBlocked(s, DoObserve(s, step), ObserveChange(s, step));
  }

  lemma ArrivalStaysBlocked(s: State, step: ArrivalStep)
    requires Safe(s) && CanArrival(s, step) && !s.stopping && s.budget.HeadBlocked()
    ensures DoArrival(s, step).budget.HeadBlocked()
  {
    ArrivalGentle(s, step);
    hide Effect, DoArrival, CanArrival, ArrivalChange, Gentle, Allowance.Sound, Allowance.HeadBlocked;
    ArrivalEffect(s, step);
    ChangeStaysBlocked(s, DoArrival(s, step), ArrivalChange(s, step));
  }

  lemma WriteStaysBlocked(s: State, step: WriteStep)
    requires Safe(s) && CanWrite(s, step) && !s.stopping && s.budget.HeadBlocked()
    ensures DoWrite(s, step).budget.HeadBlocked()
  {
    hide Effect, DoWrite, CanWrite, Allowance.Sound, Allowance.HeadBlocked;
    WriteEffect(s, step);
    ChangeStaysBlocked(s, DoWrite(s, step), WriteChange(step));
  }

  lemma DispatchStaysBlocked(s: State, step: DispatchStep)
    requires Safe(s) && CanDispatch(s, step) && !s.stopping && s.budget.HeadBlocked()
    ensures DoDispatch(s, step).budget.HeadBlocked()
  {
    hide Effect, DoDispatch, CanDispatch, Allowance.Sound, Allowance.HeadBlocked;
    DispatchEffect(s, step);
    ChangeStaysBlocked(s, DoDispatch(s, step), DispatchChange(s, step));
  }

  lemma StepStaysBlocked(s: State, step: Step)
    requires Safe(s) && Can(s, step) && !s.stopping && s.budget.HeadBlocked()
    ensures Do(s, step).budget.HeadBlocked()
  {
    assert s.budget.Sound();
    hide Safe, Allowance.Sound, Allowance.HeadBlocked, Close, DoCall, DoRead, DoSelect, DoObserve, DoArrival, DoWrite, DoDispatch;
    hide CanCall, CanRead, CanSelect, CanObserve, CanArrival, CanWrite, CanDispatch;
    match step {
      case OfCall(c) => CallStaysBlocked(s, c);
      case OfRead(r) => ReadStaysBlocked(s, r);
      case OfSelect(c) => SelectStaysBlocked(s, c);
      case OfObserve(o) => ObserveStaysBlocked(s, o);
      case OfArrival(a) => ArrivalStaysBlocked(s, a);
      case OfWrite(w) => WriteStaysBlocked(s, w);
      case OfDispatch(d) => DispatchStaysBlocked(s, d);
      case _ =>
    }
  }

  /** A step leaves both waiting, or only a packet, or has just asked for a record. */
  predicate LineStays(s: State, t: State) {
    && t.cfg == s.cfg
    && (t.work.ObserveWait? ==>
          && t.inb.pending == s.inb.pending
          && (t.work == s.work || (s.cfg.sink && t.work.request == |s.budget.requests|)))
  }

  lemma StepLine(s: State, step: Step)
    requires s.budget.Sound() && Can(s, step)
    ensures LineStays(s, Do(s, step))
  {
    hide Release, Close, Allowance.Sound, DoCall, DoObserve, DoArrival, DoWrite;
    match step {
      case OfCall(c) => CallLine(s, c);
      case OfObserve(o) => ObserveLine(s, o); hide LineStays;
      case OfArrival(a) => ArrivalLine(s, a); hide LineStays;
      case OfWrite(w) => WriteLine(s, w); hide LineStays;
      case _ =>
    }
  }

  lemma CallLine(s: State, step: CallStep)
    requires s.budget.Sound() && CanCall(s, step)
    ensures
      var t := DoCall(s, step);
      t.cfg == s.cfg && t.inb == s.inb && t.work == s.work
  {
    hide Reserve, Release, Cancel, Allowance.Sound;
  }

  lemma ObserveLine(s: State, step: ObserveStep)
    requires s.budget.Sound() && CanObserve(s, step)
    ensures LineStays(s, DoObserve(s, step))
  {
    ObserveShape(s, step);
    if step.Ask? { AskLine(s); } else { NoNewWait(s, step); }
    hide DoObserve, CanObserve, Allowance.Sound;
  }

  lemma AskLine(s: State)
    requires s.budget.Sound() && CanObserve(s, Ask)
    ensures
      var t := DoObserve(s, Ask);
      t.work.ObserveWait? ==> s.cfg.sink && t.work.request == |s.budget.requests|
  {
    ReserveRefuses(s.budget, 1, s.work.input.bytes);
    RecordedShape(s, s.work.next);
    hide Reserve, Recorded, Allowance.Sound;
  }

  lemma NoNewWait(s: State, step: ObserveStep)
    requires s.budget.Sound() && CanObserve(s, step) && !step.Ask?
    ensures !DoObserve(s, step).work.ObserveWait?
  {
    hide Reserve, Release, Cancel, Allowance.Sound, Report;
  }

  lemma ArrivalLine(s: State, step: ArrivalStep)
    requires s.budget.Sound() && CanArrival(s, step)
    ensures LineStays(s, DoArrival(s, step))
  {
    hide Reserve, Release, Cancel, Charge, Allowance.Sound;
  }

  lemma WriteLine(s: State, step: WriteStep)
    requires s.budget.Sound() && CanWrite(s, step)
    ensures LineStays(s, DoWrite(s, step))
  {
    hide Release, Allowance.Sound;
  }

  lemma StepWaits(s: State, step: Step)
    requires Safe(s) && LineFine(s) && Can(s, step)
    ensures LineFine(Do(s, step))
  {
    StepSafe(s, step);
    StepStopping(s, step);
    StepLine(s, step);
    KnownRequests(s);
    var t := Do(s, step);
    assert t.budget.Sound();
    hide Do, Can;
    if !t.stopping {
      hide Safe, Allowance.Sound, Allowance.HeadBlocked;
      StepStaysBlocked(s, step);
    }
  }

  lemma StepStopping(s: State, step: Step)
    requires s.budget.Sound() && Can(s, step)
    ensures s.stopping ==> Do(s, step).stopping
  {
    StopsExactly(s, step);
  }

  // ---- room -------------------------------------------------------------------------------------

  /** The record fits the budget beside the call and the packet the coordinator holds while it asks. */
  predicate RoomBeside(s: State)
    requires s.work.ObserveWait?
  {
    && (if ForCall(s.work.next) then 1 else 0) + (if s.inb.pending.Some? then 1 else 0) + 1 <= s.cfg.maxItems
    && (if s.inb.pending.Some? then s.inb.pending.value.arrival.size else 0) + s.work.input.bytes <= s.cfg.maxBytes
  }

  lemma OwnStakes(ks: seq<Stake>, rs: seq<Request>)
    requires |ks| >= CALLS
    ensures SumItems(ks, rs) >= StakeItems(ks[TURN], rs) + StakeItems(ks[WORK], rs) + StakeItems(ks[PENDING], rs)
    ensures SumBytes(ks, rs) >= StakeBytes(ks[TURN], rs) + StakeBytes(ks[WORK], rs) + StakeBytes(ks[PENDING], rs)
  {
    SumUpdate(ks, rs, TURN, NoStake);
    SumUpdate(ks[TURN := NoStake], rs, WORK, NoStake);
    SumUpdate(ks[TURN := NoStake][WORK := NoStake], rs, PENDING, NoStake);
    hide SumItems, SumBytes;
  }

  lemma SumsOfOne(ks: seq<Stake>, rs: seq<Request>)
    requires |ks| == 1
    ensures SumItems(ks, rs) == StakeItems(ks[0], rs) && SumBytes(ks, rs) == StakeBytes(ks[0], rs)
  {
    assert ks[..0] == [];
    assert SumItems(ks[..0], rs) == 0 && SumBytes(ks[..0], rs) == 0;
  }

  lemma {:induction false} OnlyOwnStakes(ks: seq<Stake>, rs: seq<Request>)
    requires |ks| >= CALLS - 1 && forall i :: CALLS - 1 <= i < |ks| ==> ks[i] == NoStake
    ensures SumItems(ks, rs) == StakeItems(ks[TURN], rs) + StakeItems(ks[WORK], rs) + StakeItems(ks[PENDING], rs)
    ensures SumBytes(ks, rs) == StakeBytes(ks[TURN], rs) + StakeBytes(ks[WORK], rs) + StakeBytes(ks[PENDING], rs)
  {
    var n := |ks| - 1;
    if n == 2 {
      assert ks[..2][..1] == ks[..1];
      SumsOfOne(ks[..1], rs);
    } else {
      OnlyOwnStakes(ks[..n], rs);
    }
  }

  /** Who asked first is granted first. */
  lemma EarlierGranted(b: Allowance, early: nat, late: nat)
    requires b.Sound() && early < late < |b.requests| && b.requests[late].granted
    ensures b.requests[early].ready
  {
    assert b.SoundRequest(early) && b.SoundRequest(late);
    var g :| 0 <= g < |b.grants| && b.grants[g] == late;
    forall q | 0 <= q < |b.queue| ensures b.queue[q] != early { assert b.grants[g] < b.queue[q]; }
  }

  /** The packet that waits was granted before the record is. */
  lemma PendingFirst(s: State)
    requires Safe(s) && LineFine(s) && AllUnrefused(s.budget, Stakes(s)) && !s.stopping && s.work.ObserveWait?
    requires s.work.request < |s.budget.requests| && s.budget.requests[s.work.request].granted
    ensures s.inb.pending.Some? ==> PendingGranted(s)
  {
    if s.inb.pending.Some? {
      KnownRequests(s);
      EarlierGranted(s.budget, s.inb.pending.value.request, s.work.request);
      assert Unrefused(s.budget, Stakes(s)[PENDING]) && Ordered(s);
    }
  }

  /** Without the room the record is never granted while the stream runs. */
  lemma GrantedHasRoom(s: State)
    requires Safe(s) && LineFine(s) && AllUnrefused(s.budget, Stakes(s)) && !s.stopping && s.work.ObserveWait?
    requires s.work.request < |s.budget.requests| && s.budget.requests[s.work.request].granted
    ensures RoomBeside(s)
  {
    PendingFirst(s);
    var ks, rs := Stakes(s), s.budget.requests;
    assert Conserved(s) && Ceiling(s) && Within(s.budget);
    hide Safe, LineFine, AllUnrefused, Conserved, Stakes, SumItems, SumBytes, Covered, Allowance.Sound;
    OwnStakes(ks, rs);
    assert s.budget.items >= SumItems(ks, rs) && s.budget.bytes >= SumBytes(ks, rs) by { ConservedSums(s); }
    assert ks[TURN] == TurnStake(s.work) && ks[WORK] == WorkStake(s.work) && ks[PENDING] == PendingStake(s.inb.pending);
  }

  lemma ConservedSums(s: State)
    requires Conserved(s)
    ensures s.budget.items == SumItems(Stakes(s), s.budget.requests) + QueuedItems(s)
    ensures s.budget.bytes == SumBytes(Stakes(s), s.budget.requests) + QueuedBytes(s)
  {
  }

  /** A request decided while the stream runs was granted. */
  lemma DecidedIsGranted(s: State)
    requires Safe(s) && AllUnrefused(s.budget, Stakes(s)) && !s.stopping && s.work.ObserveWait?
    requires s.work.request < |s.budget.requests| && s.budget.requests[s.work.request].ready
    ensures s.budget.requests[s.work.request].granted
  {
    assert Unrefused(s.budget, Stakes(s)[WORK]) && Ordered(s);
  }

  // ---- without room -----------------------------------------------------------------------------------

  /** A coordinator whose record is undecided takes no step, unless the stream stops. */
  lemma NotItsTurn(s: State, step: Step)
    requires Can(s, step) && s.work.ObserveWait? && !s.stopping
    requires s.work.request < |s.budget.requests| && !s.budget.requests[s.work.request].ready
    ensures !step.OfSelect? && !step.OfObserve? && !step.OfArrival? && !step.OfWrite?
  {
  }

  lemma OthersLeaveIt(s: State, step: Step)
    requires s.budget.Sound() && Can(s, step) && !step.OfSelect? && !step.OfObserve? && !step.OfArrival? && !step.OfWrite?
    ensures
      var t := Do(s, step);
      t.work == s.work && t.inb.pending == s.inb.pending && t.cfg == s.cfg
  {
    hide Allowance.Sound, Release, Close;
    match step {
      case OfCall(c) => CallLine(s, c); hide DoCall;
      case _ =>
    }
  }

  /** Nobody moves a coordinator that waits without room, but by stopping the stream. */
  lemma StaysStuck(s: State, step: Step)
    requires Safe(s) && LineFine(s) && StopsFine(s) && Can(s, step)
    requires !s.stopping && s.work.ObserveWait? && !RoomBeside(s)
    ensures
      var t := Do(s, step);
      t.work == s.work && t.inb.pending == s.inb.pending && t.cfg == s.cfg
  {
    KnownRequests(s);
    if s.budget.requests[s.work.request].ready {
      DecidedIsGranted(s);
      GrantedHasRoom(s);
    }
    assert s.budget.Sound();
    hide Safe, LineFine, StopsFine, RoomBeside, Do, Can, Allowance.Sound;
    NotItsTurn(s, step);
    OthersLeaveIt(s, step);
  }

  lemma {:induction false} RunStuck(s: State, steps: seq<Step>)
    requires Safe(s) && InboundOrder(s) && LineFine(s) && StopsFine(s) && CanAll(s, steps)
    requires s.work.ObserveWait? && !RoomBeside(s) && !DoAll(s, steps).stopping
    ensures DoAll(s, steps).work == s.work
    decreases |steps|
  {
    assert s.budget.Sound();
    StillStopping(s, steps);
    hide Safe, InboundOrder, LineFine, StopsFine, Do, Can, Allowance.Sound;
    if steps != [] {
      StepSafe(s, steps[0]);
      StepOrder(s, steps[0]);
      StepWaits(s, steps[0]);
      StepStops(s, steps[0]);
      StaysStuck(s, steps[0]);
      RunStuck(Do(s, steps[0]), steps[1..]);
    }
  }

  lemma {:induction false} StillStopping(s: State, steps: seq<Step>)
    requires s.budget.Sound() && CanAll(s, steps)
    ensures s.stopping ==> DoAll(s, steps).stopping
    decreases |steps|
  {
    hide Do, Can, Allowance.Sound;
    if steps != [] {
      StepStopping(s, steps[0]);
      StillStopping(Do(s, steps[0]), steps[1..]);
    }
  }

  // ---- with room: everybody else can let go ----------------------------------------------------------

  /** Calls that wait for capacity, or hold some without having been taken. */
  function CallsLeft(calls: seq<Call>): nat {
    if calls == [] then 0
    else (if calls[0].phase.Acquiring? || calls[0].phase.Offering? then 1 else 0) + CallsLeft(calls[1..])
  }

  lemma {:induction false} CallLeft(calls: seq<Call>) returns (w: nat)
    requires CallsLeft(calls) > 0
    ensures w < |calls| && (calls[w].phase.Acquiring? || calls[w].phase.Offering?)
  {
    if calls[0].phase.Acquiring? || calls[0].phase.Offering? {
      w := 0;
    } else {
      w := CallLeft(calls[1..]);
      w := w + 1;
    }
  }

  lemma {:induction false} NoneLeft(calls: seq<Call>, w: nat)
    requires CallsLeft(calls) == 0 && w < |calls|
    ensures !calls[w].phase.Acquiring? && !calls[w].phase.Offering?
  {
    if w > 0 { NoneLeft(calls[1..], w - 1); }
  }

  lemma {:induction false} OneFewer(calls: seq<Call>, w: nat, c: Call)
    requires w < |calls| && (calls[w].phase.Acquiring? || calls[w].phase.Offering?) && c.phase.Returned?
    ensures CallsLeft(calls[w := c]) < CallsLeft(calls)
  {
    if w == 0 {
      assert calls[w := c][1..] == calls[1..];
    } else {
      assert calls[w := c][1..] == calls[1..][w - 1 := c];
      OneFewer(calls[1..], w - 1, c);
    }
  }

  /** How much others hold, in steps it takes them to let it go. */
  function OthersHold(s: State): nat {
    CallsLeft(s.out.calls) + 2 * |s.rec.channel| + (if s.rec.dispatcher.Delivering? then 1 else 0)
    + |s.inb.taken| + 2 * |s.inb.queue|
  }

  /** Somebody else lets go of something, and the coordinator stays where it is. */
  predicate LetsGo(s: State, step: Step)
    requires s.budget.Sound()
  {
    && Can(s, step)
    && var t := Do(s, step);
       !t.stopping && t.work == s.work && t.inb.pending == s.inb.pending && t.cfg == s.cfg && OthersHold(t) < OthersHold(s)
  }

  lemma CallLetsGo(s: State, w: nat)
    requires Safe(s) && !s.stopping && w < |s.out.calls| && (s.out.calls[w].phase.Acquiring? || s.out.calls[w].phase.Offering?)
    ensures LetsGo(s, OfCall(if s.out.calls[w].phase.Acquiring? then GiveUpWaiting(w) else GiveUpOffering(w, true)))
  {
    assert s.budget.Sound();
    if s.out.calls[w].phase.Acquiring? { StakeKnown(s, CALLS + w); }
    var step := if s.out.calls[w].phase.Acquiring? then GiveUpWaiting(w) else GiveUpOffering(w, true);
    assert CanCall(s, step);
    OneCall(s, step);
    GivesUp(s, step);
    hide Safe, Allowance.Sound, DoCall, CanCall;
    OneFewer(s.out.calls, w, DoCall(s, step).out.calls[w]);
  }

  lemma GivesUp(s: State, step: CallStep)
    requires s.budget.Sound() && CanCall(s, step) && (step.GiveUpWaiting? || step.GiveUpOffering?)
    ensures
      var t := DoCall(s, step);
      |t.out.calls| == |s.out.calls| && t.out.calls[step.call].phase.Returned? && t.stopping == s.stopping
  {
    hide Reserve, Release, Cancel, Allowance.Sound;
  }

  lemma RecordLetsGo(s: State)
    requires s.budget.Sound() && !s.stopping && s.work != Halted && Drainer(s) && s.cfg.sink
    requires s.rec.dispatcher.Delivering? || s.rec.channel != []
    ensures LetsGo(s, OfDispatch(if s.rec.dispatcher.Delivering? then Deliver(true) else TakeRecord))
  {
    hide Release, Allowance.Sound, CallsLeft;
  }

  lemma ReadLetsGo(s: State)
    requires s.budget.Sound() && !s.stopping && (s.inb.taken != [] || s.inb.queue != [])
    ensures LetsGo(s, OfRead(if s.inb.taken != [] then ReturnCharge(0) else Take))
  {
    hide Release, Allowance.Sound, CallsLeft;
  }

  lemma SomebodyLetsGo(s: State) returns (step: Step)
    requires Good(s) && LineFine(s) && !s.stopping && s.work.ObserveWait? && OthersHold(s) > 0
    ensures LetsGo(s, step)
  {
    assert Safe(s) && Drainer(s) && s.budget.Sound();
    hide Good, Safe, LineFine, Drainer, LetsGo, Allowance.Sound, CallsLeft;
    if CallsLeft(s.out.calls) > 0 {
      var w := CallLeft(s.out.calls);
      CallLetsGo(s, w);
      step := OfCall(if s.out.calls[w].phase.Acquiring? then GiveUpWaiting(w) else GiveUpOffering(w, true));
    } else if s.rec.dispatcher.Delivering? || s.rec.channel != [] {
      RecordLetsGo(s);
      step := OfDispatch(if s.rec.dispatcher.Delivering? then Deliver(true) else TakeRecord);
    } else {
      ReadLetsGo(s);
      step := OfRead(if s.inb.taken != [] then ReturnCharge(0) else Take);
    }
  }

  lemma NobodyElse(s: State)
    requires OthersHold(s) == 0
    ensures forall i :: CALLS - 1 <= i < |Stakes(s)| ==> Stakes(s)[i] == NoStake
    ensures QueuedItems(s) == 0 && QueuedBytes(s) == 0
  {
    forall i | CALLS - 1 <= i < |Stakes(s)| ensures Stakes(s)[i] == NoStake {
      if i >= CALLS {
        NoneLeft(s.out.calls, i - CALLS);
        assert Stakes(s)[i] == CallStake(s.out.calls[i - CALLS]);
      }
    }
  }

  /** What is held once nobody else holds anything: the call's item, and the packet's share if it was granted. */
  lemma OnlyOwnHeld(s: State)
    requires Conserved(s) && OthersHold(s) == 0 && s.work.ObserveWait? && s.work.request < |s.budget.requests|
    requires !s.budget.requests[s.work.request].granted
    ensures
      var granted := s.inb.pending.Some? && PendingGranted(s);
      && s.budget.items == (if ForCall(s.work.next) then 1 else 0) + (if granted then 1 else 0)
      && s.budget.bytes == (if granted then s.inb.pending.value.arrival.size else 0)
  {
    KnownRequests(s);
    if s.inb.pending.Some? { assert s.budget.SoundRequest(s.inb.pending.value.request); }
    NobodyElse(s);
    ConservedSums(s);
    var ks := Stakes(s);
    assert ks[TURN] == TurnStake(s.work) && ks[WORK] == WorkStake(s.work) && ks[PENDING] == PendingStake(s.inb.pending);
    hide Conserved, Stakes, SumItems, SumBytes, OthersHold, QueuedItems, QueuedBytes;
    OnlyOwnStakes(ks, s.budget.requests);
  }

  /** The head of the line is the record's request, or the packet's. */
  lemma HeadIsOwn(s: State)
    requires Conserved(s) && OthersHold(s) == 0 && s.work.ObserveWait? && s.budget.queue != []
    ensures
      var h := s.budget.queue[0];
      && h < |s.budget.requests| && s.budget.requests[h].items == 1
      && ((h == s.work.request && s.budget.requests[h].bytes == s.work.input.bytes)
          || (s.inb.pending.Some? && h == s.inb.pending.value.request
              && s.budget.requests[h].bytes == s.inb.pending.value.arrival.size))
  {
    NobodyElse(s);
    var ks := Stakes(s);
    assert ks[TURN] == TurnStake(s.work) && ks[WORK] == WorkStake(s.work) && ks[PENDING] == PendingStake(s.inb.pending);
    assert Claimed(ks, s.budget.queue[0]);
    var i :| 0 <= i < |ks| && Claims(ks[i], s.budget.queue[0]);
    assert Claimant(s.budget, ks, i);
    hide Stakes, OthersHold, Allowance.Sound;
    assert i == TURN || i == WORK || i == PENDING;
  }

  lemma HeadFits(s: State)
    requires Safe(s) && PacketFirst(s) && AllUnrefused(s.budget, Stakes(s)) && !s.stopping && OthersHold(s) == 0
    requires s.work.ObserveWait? && RoomBeside(s) && s.work.request < |s.budget.requests|
    requires !s.budget.requests[s.work.request].granted
    ensures s.budget.queue != [] && s.budget.queue[0] < |s.budget.requests|
    ensures s.budget.Fits(s.budget.requests[s.budget.queue[0]])
  {
    assert Conserved(s) && Ceiling(s);
    if s.budget.requests[s.work.request].ready { DecidedIsGranted(s); }
    assert s.budget.SoundRequest(s.work.request) && s.work.request in s.budget.queue;
    HeadIsOwn(s);
    OnlyOwnHeld(s);
    if s.budget.queue[0] == s.work.request && s.inb.pending.Some? { HeadIsLast(s); }
    if s.inb.pending.Some? && s.budget.queue[0] == s.inb.pending.value.request { HeadWaits(s.budget); }
    hide Safe, AllUnrefused, Conserved, Stakes, OthersHold, Allowance.Sound;
  }

  lemma HeadWaits(b: Allowance)
    requires b.Sound() && b.queue != []
    ensures b.queue[0] < |b.requests| && !b.requests[b.queue[0]].granted
  {
    assert b.SoundRequest(b.queue[0]) && b.queue[0] in b.queue;
  }

  /** When the record is next in line, the packet has been granted. */
  lemma HeadIsLast(s: State)
    requires Safe(s) && PacketFirst(s) && AllUnrefused(s.budget, Stakes(s)) && !s.stopping
    requires s.work.ObserveWait? && s.inb.pending.Some? && s.budget.queue != [] && s.budget.queue[0] == s.work.request
    ensures PendingGranted(s)
  {
    KnownRequests(s);
    var early := s.inb.pending.value.request;
    assert s.budget.SoundRequest(early) && early !in s.budget.queue by {
      forall q | 0 <= q < |s.budget.queue| ensures s.budget.queue[q] != early {
        assert q > 0 ==> s.budget.queue[0] < s.budget.queue[q];
      }
    }
    assert Unrefused(s.budget, Stakes(s)[PENDING]) && Ordered(s);
  }

  lemma AloneGranted(s: State)
    requires Safe(s) && LineFine(s) && AllUnrefused(s.budget, Stakes(s)) && !s.stopping && OthersHold(s) == 0
    requires s.work.ObserveWait? && RoomBeside(s) && s.work.request < |s.budget.requests|
    ensures s.budget.requests[s.work.request].granted
  {
    if !s.budget.requests[s.work.request].granted { HeadFits(s); }
  }

  // ---- every run -----------------------------------------------------------------------------------------

  lemma StepGood(s: State, step: Step)
    requires Good(s) && Can(s, step)
    ensures Good(Do(s, step))
  {
    assert s.budget.Sound();
    hide Safe, InboundOrder, WriteFine, RecordsFine, StopsFine, Do, Can, Allowance.Sound;
    StepSafe(s, step);
    StepOrder(s, step);
    StepWrites(s, step);
    StepRecords(s, step);
    StepStops(s, step);
  }

  lemma {:induction false} RunWaits(s: State, steps: seq<Step>)
    requires Safe(s) && LineFine(s) && CanAll(s, steps)
    ensures LineFine(DoAll(s, steps))
    decreases |steps|
  {
    assert s.budget.Sound();
    hide Safe, LineFine, Do, Can, Allowance.Sound;
    if steps != [] {
      StepSafe(s, steps[0]);
      StepWaits(s, steps[0]);
      RunWaits(Do(s, steps[0]), steps[1..]);
    }
  }

  lemma InitWaits(cfg: Config)
    ensures LineFine(Init(cfg))
  {
  }

  /** The others let go until the record is granted, and then it is made. */
  lemma {:induction false} GoesOn(s: State) returns (more: seq<Step>)
    requires Good(s) && LineFine(s) && !s.stopping && s.work.ObserveWait? && RoomBeside(s)
    ensures CanAll(s, more) && !DoAll(s, more).stopping && DoAll(s, more).work != s.work
    decreases OthersHold(s)
  {
    assert Safe(s) && s.budget.Sound() && AllUnrefused(s.budget, Stakes(s)) && Conserved(s);
    hide Good, Safe, LineFine, AllUnrefused, Conserved, OthersHold, Do, Can, LetsGo, Stakes, Allowance.Sound;
    KnownRequests(s);
    if s.budget.requests[s.work.request].granted {
      GrantedGoes(s);
      One(s, OfObserve(Granted));
      more := [OfObserve(Granted)];
    } else {
      if OthersHold(s) == 0 { AloneGranted(s); }
      var step := SomebodyLetsGo(s);
      LetsGoOn(s, step);
      StepGood(s, step);
      StepWaits(s, step);
      var rest := GoesOn(Do(s, step));
      more := [step] + rest;
      assert more[1..] == rest;
    }
  }

  lemma LetsGoOn(s: State, step: Step)
    requires s.budget.Sound() && LetsGo(s, step) && s.work.ObserveWait? && RoomBeside(s)
    ensures Can(s, step)
    ensures
      var t := Do(s, step);
      !t.stopping && t.work == s.work && RoomBeside(t) && OthersHold(t) < OthersHold(s)
  {
    hide Do, Can, OthersHold, Allowance.Sound;
  }

  lemma GrantedGoes(s: State)
    requires s.budget.Sound() && s.work.ObserveWait? && s.work.request < |s.budget.requests|
    requires s.budget.requests[s.work.request].granted && !s.stopping
    ensures Can(s, OfObserve(Granted))
    ensures !Do(s, OfObserve(Granted)).stopping && Do(s, OfObserve(Granted)).work != s.work
  {
    assert s.budget.SoundRequest(s.work.request);
  }

  /**
   A record the coordinator waits to make can still be made, without stopping the stream, exactly
   when the budget has room for it beside what the coordinator itself holds. Otherwise the
   coordinator is stuck, whatever the peer, the sink, and every reader and writer do.
   */
  lemma RecordsExactly(cfg: Config, steps: seq<Step>)
    requires CanAll(Init(cfg), steps) && !DoAll(Init(cfg), steps).stopping && DoAll(Init(cfg), steps).work.ObserveWait?
    ensures
      var s := DoAll(Init(cfg), steps);
      (exists more :: CanAll(s, more) && !DoAll(s, more).stopping && DoAll(s, more).work != s.work) <==> RoomBeside(s)
  {
    EveryRunGood(cfg, steps);
    InitSafe(cfg);
    InitWaits(cfg);
    hide Safe, InboundOrder, WriteFine, RecordsFine, StopsFine, LineFine, Init, CanAll, DoAll, RoomBeside, Allowance.Sound;
    RunWaits(Init(cfg), steps);
    var s := DoAll(Init(cfg), steps);
    if RoomBeside(s) {
      var more := GoesOn(s);
    } else {
      forall more | CanAll(s, more) && !DoAll(s, more).stopping ensures DoAll(s, more).work == s.work {
        RunStuck(s, more);
      }
    }
  }
}
