/**
 The stream's guarantees for every run from the start, and a run that shows a decoded
 packet can be lost at the stop.
 */
module StreamTheorems {
  import opened Wrappers
  import opened Budget
  import opened Stream
  import opened StreamBalance
  import opened StreamConservation
  import opened StreamSafety
  import opened StreamSafe
  import opened StreamInbound
  import opened StreamDrops
  import opened StreamWrites
  import opened StreamRecords
  import opened StreamStops

  ghost predicate Good(s: State) {
    Safe(s) && InboundOrder(s) && WriteFine(s) && RecordsFine(s) && StopsFine(s)
  }

  /** Budget conserved, packets in order, outcomes true, records counted, failures stopping it: in every reachable state. */
  lemma EveryRunGood(cfg: Config, steps: seq<Step>)
    requires CanAll(Init(cfg), steps)
    ensures Good(DoAll(Init(cfg), steps))
  {
    InitSafe(cfg);
    InitWrites(cfg);
    InitRecords(cfg);
    InitOrder(cfg);
    InitStops(cfg);
    hide Safe, InboundOrder, WriteFine, RecordsFine, StopsFine, Init, CanAll, DoAll, Allowance.Sound;
    RunSafe(Init(cfg), steps);
    RunOrder(Init(cfg), steps);
    RunWrites(Init(cfg), steps);
    RunRecords(Init(cfg), steps);
    RunStops(Init(cfg), steps);
  }

  lemma InitOrder(cfg: Config)
    ensures InboundOrder(Init(cfg))
  {
    hide New, Allowance.Sound;
    assert Line(Init(cfg)) == [];
  }

  // ---- short runs ---------------------------------------------------------------------------

  lemma FourSteps(s: State, steps: seq<Step>)
    requires s.budget.Sound() && |steps| == 4 && Can(s, steps[0]) && Can(Do(s, steps[0]), steps[1])
    requires Can(Do(Do(s, steps[0]), steps[1]), steps[2])
    requires Can(Do(Do(Do(s, steps[0]), steps[1]), steps[2]), steps[3])
    ensures CanAll(s, steps) && DoAll(s, steps) == Do(Do(Do(Do(s, steps[0]), steps[1]), steps[2]), steps[3])
  {
    hide Can, Do, Allowance.Sound;
    assert steps[1..][..] == [steps[1], steps[2], steps[3]];
    ThreeSteps(Do(s, steps[0]), steps[1..]);
  }

  // ---- what is left open ---------------------------------------------------------------------------------

  /**
   Nothing is assumed of whoever the stream does not control: a peer, a session, a sink, a
   context, an owner, a reader and a writer may do anything whenever it is their turn.
   */
  lemma NothingAssumed(s: State)
    ensures Can(s, OfCall(Enter)) && Can(s, OfEnd(Stop))
    ensures s.inb.queue != [] ==> Can(s, OfRead(Take))
    ensures forall k: nat :: k < |s.inb.taken| ==> Can(s, OfRead(ReturnCharge(k)))
    ensures s.inb.reader == Reading ==> Can(s, OfPump(FrameRead)) && Can(s, OfPump(ReadFails(false)))
    ensures s.out.pump.Writing? ==> forall ok :: Can(s, OfPump(WriteEnds(ok)))
    ensures s.work == Select ==> forall n: nat :: Can(s, OfSelect(AcceptControl(n))) && Can(s, OfSelect(AcceptShutdown))
    ensures s.work == Select && s.inb.pending.None? && s.inb.reader == HoldingFrame ==> forall n: nat :: Can(s, OfSelect(AcceptFrame(n)))
    ensures forall w: nat :: s.work == Select && w < |s.out.calls| && s.out.calls[w].phase == Offering ==> Can(s, OfSelect(AcceptCall(w)))
    ensures s.work.Decoding? ==> forall result :: Can(s, OfArrival(Decode(result)))
    ensures s.work.Encoding? ==> forall result :: Can(s, OfWrite(Encode(result)))
    ensures s.work.Disconnecting? ==> forall supported, built :: Can(s, OfWrite(BuildGoodbye(supported, built)))
    ensures s.work.GoodbyeHanding? || s.work.GoodbyeAwaiting? ==> Can(s, OfWrite(GoodbyeGivenUp(true)))
    ensures s.rec.dispatcher.Delivering? ==> forall accepted :: Can(s, OfDispatch(Deliver(accepted)))
    ensures forall w: nat :: w < |s.out.calls| && s.out.calls[w].phase == Offering ==> Can(s, OfCall(GiveUpOffering(w, true)))
    ensures forall w: nat :: w < |s.out.calls| && s.out.calls[w].phase == Accepted ==> Can(s, OfCall(GiveUpAccepted(w)))
  {
  }

  /** And what the stream has told to stop may notice it wherever it waits. */
  lemma StopNoticed(s: State)
    requires s.stopping
    ensures s.work == Select ==> Can(s, OfSelect(NoticeStop)) && Can(s, OfSelect(SnapshotStops))
    ensures s.work.ObserveWait? && s.work.request < |s.budget.requests| ==> Can(s, OfObserve(StopWaiting))
    ensures s.work.ObserveSend? ==> Can(s, OfObserve(StopSending))
    ensures s.work.Handing? ==> Can(s, OfWrite(HandStopped))
    ensures s.inb.reader == Reading ==> Can(s, OfPump(ReadFails(true)))
    ensures s.inb.reader == Parked || s.inb.reader == HoldingFrame ==> Can(s, OfPump(ReaderStops))
    ensures s.out.pump == WriterIdle ==> Can(s, OfPump(WriterStops))
    ensures s.rec.dispatcher == Idle ==> Can(s, OfDispatch(DispatcherStops))
    ensures forall w: nat :: w < |s.out.calls| && s.out.calls[w].phase == Offering ==> Can(s, OfCall(GiveUpOffering(w, false)))
  {
  }

  // ---- failures ---------------------------------------------------------------------------------------

  /**
   Nothing fails silently. In every reachable state a read pump that has returned leaves the
   stream stopping, or everything recorded after a goodbye; a write pump that has returned, a
   call told that the transport or the stream failed it, and a refused reservation, leave it
   stopping; and a stream that is done has no goroutine left.
   */
  lemma FailuresStop(cfg: Config, steps: seq<Step>)
    requires CanAll(Init(cfg), steps)
    ensures
      var s := DoAll(Init(cfg), steps);
      && (s.inb.reader == ReaderHalted ==> s.stopping || (s.rec.finishing && s.rec.dispatcher == DispatcherHalted))
      && (s.out.pump == WriterHalted ==> s.stopping)
      && (forall w :: 0 <= w < |s.out.calls| && s.out.calls[w].phase.Returned? ==>
            s.out.calls[w].phase.outcome in {TransportFailed, AmbiguousWrite, NotRecorded, StreamEnded} ==> s.stopping)
      && (PendingRefused(s) ==> s.stopping)
      && (s.done ==>
            && s.stopping && s.work == Halted && s.rec.finishing && s.rec.dispatcher == DispatcherHalted
            && s.out.pump == WriterHalted && s.inb.reader == ReaderHalted)
  {
    hide CanAll, DoAll, Init;
    EveryRunGood(cfg, steps);
    var s := DoAll(Init(cfg), steps);
    assert StopsFine(s) && Ordered(s);
    hide Good, Safe, InboundOrder, WriteFine, RecordsFine, Ordered;
    assert Unrefused(s.budget, Stakes(s)[PENDING]);
    assert s.budget.closed.Some? ==> s.stopping by { ClosedIsStopping(s); }
    forall w | 0 <= w < |s.out.calls| && s.out.calls[w].phase.Returned?
      ensures s.out.calls[w].phase.outcome in {TransportFailed, AmbiguousWrite, NotRecorded, StreamEnded} ==> s.stopping
    {
      assert CallStopped(s.out.calls[w], s.stopping);
    }
  }

  /** The packet waiting for capacity was refused it. */
  predicate PendingRefused(s: State) {
    && s.inb.pending.Some? && s.inb.pending.value.request < |s.budget.requests|
    && s.budget.requests[s.inb.pending.value.request].ready && !s.budget.requests[s.inb.pending.value.request].granted
  }

  lemma ClosedIsStopping(s: State)
    requires Ordered(s)
    ensures s.budget.closed.Some? ==> s.stopping
  {
  }

  // ---- outcomes and the end, for good ---------------------------------------------------------------

  /** Whatever a Write was told stays true of its frame however the run goes on. */
  lemma OutcomeForGood(cfg: Config, steps: seq<Step>, more: seq<Step>, w: nat)
    requires CanAll(Init(cfg), steps) && CanAll(DoAll(Init(cfg), steps), more)
    requires w < |DoAll(Init(cfg), steps).out.calls| && DoAll(Init(cfg), steps).out.calls[w].phase.Returned?
    ensures
      var s := DoAll(Init(cfg), steps);
      var t := DoAll(s, more);
      && w < |t.out.calls| && t.out.calls[w].phase == s.out.calls[w].phase
      && match s.out.calls[w].phase.outcome
         case Sent => Handed(t.out.wire, w) && Committed(t.out.wire, t.applied, w)
         case NotRecorded => Handed(t.out.wire, w) && Committed(t.out.wire, t.applied, w)
         case TransportFailed => Handed(t.out.handed, w) && !Handed(t.out.wire, w)
         case AmbiguousWrite => true
         case _ => !Handed(t.out.handed, w)
  {
    hide CanAll, DoAll, Init, Safe, InboundOrder, WriteFine, RecordsFine, StopsFine, Handed, Committed, Allowance.Sound;
    var s := DoAll(Init(cfg), steps);
    Then(Init(cfg), steps, more);
    EveryRunGood(cfg, steps + more);
    ReturnedForever(s, more, w);
    OutcomeTrue(DoAll(s, more), w);
  }

  // ---- a lost packet ------------------------------------------------------------------------------

  lemma {:induction false} Then(s: State, first: seq<Step>, second: seq<Step>)
    requires s.budget.Sound() && CanAll(s, first) && CanAll(DoAll(s, first), second)
    ensures CanAll(s, first + second) && DoAll(s, first + second) == DoAll(DoAll(s, first), second)
    decreases |first|
  {
    hide Can, Do, Allowance.Sound;
    if first == [] {
      assert first + second == second;
    } else {
      assert (first + second)[0] == first[0];
      Then(Do(s, first[0]), first[1..], second);
      assert (first + second)[1..] == first[1..] + second;
    }
  }

  lemma One(s: State, step: Step)
    requires s.budget.Sound() && Can(s, step)
    ensures CanAll(s, [step]) && DoAll(s, [step]) == Do(s, step)
  {
    assert CanAll(Do(s, step), []);
    assert [step][1..] == [];
  }

  ghost predicate Ready(s: State) {
    && s.work == Select && s.inb.pending.None? && s.inb.reader == Parked && s.inb.slot && !s.cfg.sink
    && s.budget.Sound() && s.budget.closed.None? && s.budget.maxItems >= 1 && s.budget.maxBytes >= 0
  }

  function Arrived(t: State, size: nat): State
    requires t.budget.Sound()
  {
    var a := Arrival(t.frames + 1, size, false);
    t.(frames := t.frames + 1,
       budget := Reserve(t.budget, 1, size).0,
       inb := t.inb.(decoded := t.inb.decoded + [a], pending := Some(Pending(a, |t.budget.requests|))))
  }

  function ReadSteps(): seq<Step> {
    [OfPump(TakeSlot), OfPump(FrameRead), OfSelect(AcceptFrame(0)), OfObserve(Ask)]
  }

  function QueueSteps(size: nat): seq<Step> {
    [OfArrival(Decode(Decoded(size, false, 0))), OfObserve(Ask), OfArrival(ReserveQueue)]
  }

  lemma FetchOne(t: State)
    requires t.budget.Sound() && t.inb.reader == Parked && t.inb.slot
    ensures Can(t, OfPump(TakeSlot)) && Can(Do(t, OfPump(TakeSlot)), OfPump(FrameRead))
    ensures Do(Do(t, OfPump(TakeSlot)), OfPump(FrameRead)) == t.(inb := t.inb.(reader := HoldingFrame, slot := false))
  {
    hide Allowance.Sound;
  }

  lemma AcceptOne(u: State)
    requires u.budget.Sound() && u.work == Select && u.inb.pending.None? && u.inb.reader == HoldingFrame && !u.cfg.sink
    ensures Can(u, OfSelect(AcceptFrame(0))) && Can(Do(u, OfSelect(AcceptFrame(0))), OfObserve(Ask))
    ensures Do(Do(u, OfSelect(AcceptFrame(0))), OfObserve(Ask))
      == u.(work := Decoding(u.frames + 1), frames := u.frames + 1, inb := u.inb.(reader := Parked))
  {
    hide Allowance.Sound;
  }

  lemma ReadOne(t: State, d: State)
    requires Ready(t)
    requires d == t.(work := Decoding(t.frames + 1), frames := t.frames + 1, inb := t.inb.(slot := false))
    ensures CanAll(t, ReadSteps()) && DoAll(t, ReadSteps()) == d
  {
    hide Allowance.Sound, CanAll, DoAll, Do, Can;
    FetchOne(t);
    var u := t.(inb := t.inb.(reader := HoldingFrame, slot := false));
    AcceptOne(u);
    FourSteps(t, ReadSteps());
  }

  lemma ThreeSteps(s: State, steps: seq<Step>)
    requires s.budget.Sound() && |steps| == 3 && Can(s, steps[0]) && Can(Do(s, steps[0]), steps[1])
    requires Can(Do(Do(s, steps[0]), steps[1]), steps[2])
    ensures CanAll(s, steps) && DoAll(s, steps) == Do(Do(Do(s, steps[0]), steps[1]), steps[2])
  {
    hide Can, Do, Allowance.Sound;
    One(Do(Do(s, steps[0]), steps[1]), steps[2]);
    assert steps[1..][1..] == [steps[2]];
    assert steps[1..][0] == steps[1];
  }

  lemma DecodeOne(d: State, a: Arrival)
    requires d.budget.Sound() && d.work == Decoding(a.frame) && !a.commits && !d.cfg.sink
    ensures
      var decode := OfArrival(Decode(Decoded(a.size, false, 0)));
      && Can(d, decode) && Can(Do(d, decode), OfObserve(Ask))
      && Do(Do(d, decode), OfObserve(Ask)) == d.(work := Queueing(a), inb := d.inb.(slot := true, decoded := d.inb.decoded + [a]))
  {
    hide Allowance.Sound;
  }

  lemma ReserveOne(e: State, a: Arrival)
    requires e.budget.Sound() && e.work == Queueing(a) && e.budget.closed.None?
    requires e.budget.maxItems >= 1 && a.size <= e.budget.maxBytes
    ensures Can(e, OfArrival(ReserveQueue))
    ensures Do(e, OfArrival(ReserveQueue)) == e.(budget := Reserve(e.budget, 1, a.size).0, work := Select,
              inb := e.inb.(pending := Some(Pending(a, |e.budget.requests|))))
  {
    assert Reserve(e.budget, 1, a.size).1 == Ok(|e.budget.requests|);
    hide Allowance.Sound, Reserve;
  }

  lemma QueueOne(t: State, d: State, size: nat)
    requires Ready(t) && size <= t.budget.maxBytes
    requires d == t.(work := Decoding(t.frames + 1), frames := t.frames + 1, inb := t.inb.(slot := false))
    ensures CanAll(d, QueueSteps(size)) && DoAll(d, QueueSteps(size)) == Arrived(t, size)
  {
    hide Allowance.Sound, Reserve, CanAll, DoAll, Do, Can;
    var a := Arrival(t.frames + 1, size, false);
    var e := d.(work := Queueing(a), inb := d.inb.(slot := true, decoded := d.inb.decoded + [a]));
    DecodeOne(d, a);
    ReserveOne(e, a);
    ThreeSteps(d, QueueSteps(size));
  }

  /** A packet arrives while nothing records, and its place in the queue is asked for. */
  lemma Arrive(t: State, size: nat)
    requires Ready(t) && size <= t.budget.maxBytes
    ensures CanAll(t, ReadSteps() + QueueSteps(size)) && DoAll(t, ReadSteps() + QueueSteps(size)) == Arrived(t, size)
  {
    var d := t.(work := Decoding(t.frames + 1), frames := t.frames + 1, inb := t.inb.(slot := false));
    ReadOne(t, d);
    QueueOne(t, d, size);
    hide CanAll, DoAll, Arrived, ReadSteps, QueueSteps;
    Then(t, ReadSteps(), QueueSteps(size));
  }

  function StopSteps(): seq<Step> {
    [OfEnd(Stop), OfEnd(CloseBudget), OfSelect(NoticePending)]
  }

  /** A stream with one place: a Write call holds it, a packet arrives and waits, and the stop loses the packet. */
  function LosingRun(): seq<Step> {
    ([OfCall(Enter)] + (ReadSteps() + QueueSteps(0))) + StopSteps()
  }

  /** The budget with its one place held, and with somebody waiting for it. */
  function Held(): Allowance {
    Allowance(1, 0, 1, 0, [Request(1, 0, true, true, None)], [], [0], None)
  }

  function Awaited(): Allowance {
    Held().(requests := [Request(1, 0, true, true, None), Request(1, 0, false, false, None)], queue := [1])
  }

  lemma FirstPlace(b: Allowance)
    requires b == New(1, 0) && b.Valid()
    ensures Reserve(b, 1, 0).0 == Held() && Held().Valid() && Held().HeadBlocked()
  {
    ReserveAtOnce(b, 1, 0);
    OpKeepsValid(b, DoReserve(1, 0));
    hide Grant, Reserve, Allowance.Sound;
  }

  lemma SecondPlace(b: Allowance)
    requires b == Held() && b.Valid() && b.HeadBlocked()
    ensures Reserve(b, 1, 0).0 == Awaited() && Awaited().Sound()
  {
    ReserveWaits(b, 1, 0);
    hide Grant, Reserve, Allowance.Sound;
  }

  lemma StopLoses(t: State, z: State)
    requires t.work == Select && t.budget == Awaited() && t.inb.pending.Some? && t.inb.pending.value.request == 1
    requires z == t.(work := Halted, stopping := true, budget := Close(t.budget, None))
    requires t.budget.Sound()
    ensures CanAll(t, StopSteps()) && DoAll(t, StopSteps()) == z
  {
    hide Allowance.Sound;
    assert Close(t.budget, None).requests[1].ready && !Close(t.budget, None).requests[1].granted;
    hide Close;
    var t1 := Do(t, OfEnd(Stop));
    var t2 := Do(t1, OfEnd(CloseBudget));
    assert Do(t2, OfSelect(NoticePending)) == z;
    hide Do, Can;
  }

  lemma Composed(s: State, t: State, a: State, z: State, arrive: seq<Step>)
    requires arrive == ReadSteps() + QueueSteps(0) && s.budget.Sound() && t.budget.Sound() && a.budget.Sound()
    requires Can(s, OfCall(Enter)) && Do(s, OfCall(Enter)) == t
    requires CanAll(t, arrive) && DoAll(t, arrive) == a
    requires CanAll(a, StopSteps()) && DoAll(a, StopSteps()) == z
    ensures CanAll(s, LosingRun()) && DoAll(s, LosingRun()) == z
  {
    hide CanAll, DoAll, ReadSteps, QueueSteps, StopSteps, Allowance.Sound, Can, Do;
    One(s, OfCall(Enter));
    Then(s, [OfCall(Enter)], arrive);
    Then(s, [OfCall(Enter)] + arrive, StopSteps());
  }

  lemma EnterHolds(s: State, b: Allowance)
    requires s == Init(Config(1, 0, false)) && b == s.budget
    ensures Held().Valid() && Held().HeadBlocked() && Ready(Do(s, OfCall(Enter)))
    ensures
      var t := Do(s, OfCall(Enter));
      t.budget == Held() && t.inb == s.inb && t.frames == 0 && t.budget.requests == Held().requests
  {
    FirstPlace(b);
    hide Reserve, Allowance.Sound;
  }

  /** A packet decoded before the stop is in no place a Read could take it from. */
  lemma DecodedPacketLost(s: State)
    requires s == Init(Config(1, 0, false))
    ensures CanAll(s, LosingRun())
    ensures DoAll(s, LosingRun()).inb.decoded == [Arrival(1, 0, false)]
    ensures Kept(DoAll(s, LosingRun())) == []
  {
    hide CanAll, DoAll, LosingRun, Reserve, Close, Allowance.Sound, Grant, New, Awaited, ReadSteps, QueueSteps, StopSteps;
    var t := Do(s, OfCall(Enter));
    EnterHolds(s, s.budget);
    SecondPlace(t.budget);
    var a := Arrived(t, 0);
    Arrive(t, 0);
    assert |Held().requests| == 1;
    var z := a.(work := Halted, stopping := true, budget := Close(a.budget, None));
    assert a.inb.decoded == [Arrival(1, 0, false)] && a.inb.queue == a.inb.received == [];
    hide Held, Ready;
    StopLoses(a, z);
    hide Arrived;
    Composed(s, t, a, z, ReadSteps() + QueueSteps(0));
  }
}
