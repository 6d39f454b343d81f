/**
 A stream that is to end can end (stream_runtime.go, stream.go). From every reachable state
 in which it is stopping, or in which the coordinator has taken a shutdown or has left, the
 stream's own goroutines have a way to its end, with nobody reading, writing or stopping it.
 */
module StreamEnds {
  import opened Wrappers
  import opened Budget
  import opened Stream
  import opened StreamBalance
  import opened StreamConservation
  import opened StreamSafety
  import opened StreamSafe
  import opened StreamInbound
  import opened StreamWrites
  import opened StreamRecords
  import opened StreamStops
  import opened StreamTheorems

  /** On its way out, whatever anybody else does. */
  predicate Ending(s: State) {
    s.stopping || s.work == Halted || s.work == Disconnecting
  }

  /** A step of the stream's own goroutines. */
  predicate Own(step: Step) {
    !step.OfCall? && !step.OfRead? && step != OfEnd(Stop)
  }

  // ---- one step further ---------------------------------------------------------------------------

  /** What the coordinator does next, having been told to stop. */
  function CoordinatorOnward(s: State): Step {
    match s.work
    case Select => OfSelect(NoticeStop)
    case Observing(_, _) => OfObserve(Ask)
    case ObserveWait(_, _, _) => OfObserve(StopWaiting)
    case ObserveSend(_, _) => OfObserve(StopSending)
    case ObserveFailed(_) => OfObserve(Resume)
    case Decoding(_) => OfArrival(Decode(DecodeFails))
    case Queueing(_) => OfArrival(ReserveQueue)
    case QueueRefused(_) => OfArrival(QueueClosed)
    case Charging(_, _) => OfArrival(ChargeArrival)
    case HandingOver(_, _) => OfArrival(HandOver)
    case SendingPending => OfArrival(SendPending)
    case HandOff => OfArrival(CheckHandOff)
    case HandOffCancel => OfArrival(CancelHandOff)
    case HandOffSend => OfArrival(SendHandOff)
    case Encoding(_) => OfWrite(Encode(EncodeFails(0)))
    case Beginning(_, _, _) => OfWrite(Begin(0))
    case Handing(_, _, _) => OfWrite(HandStopped)
    case Awaiting(_, _, _) => if s.out.result.Some? then OfWrite(ReadResult(0, 0)) else OfPump(WriteEnds(false))
    case Releasing(_) => OfWrite(ReleaseCall)
    case Disconnecting => OfWrite(BuildGoodbye(false, false))
    case GoodbyeHanding(_) => OfWrite(GoodbyeGivenUp(true))
    case GoodbyeAwaiting(_) => OfWrite(GoodbyeGivenUp(true))
    case Halted => OfEnd(FinishObserving)
  }

  /** What is left once it has left: the dispatcher, then the pumps, then the budget. */
  function OthersOnward(s: State): Step {
    if !s.rec.finishing then OfEnd(FinishObserving)
    else if s.rec.dispatcher == Idle then OfDispatch(if s.stopping then DispatcherStops else StartDraining)
    else if s.rec.dispatcher.Delivering? then OfDispatch(Deliver(true))
    else if s.rec.dispatcher == Draining then OfDispatch(if s.rec.channel != [] then TakeRecord else Drained)
    else if !s.stopping then OfEnd(StopAfterDrain)
    else if s.inb.reader == Reading then OfPump(ReadFails(true))
    else if s.inb.reader != ReaderHalted then OfPump(ReaderStops)
    else if s.out.pump.Writing? then OfPump(WriteEnds(false))
    else if s.out.pump == WriterIdle then OfPump(WriterStops)
    else if s.budget.closed.None? then OfEnd(CloseBudget)
    else OfEnd(Finish)
  }

  function Onward(s: State): Step {
    if s.work == Halted then OthersOnward(s) else CoordinatorOnward(s)
  }

  // ---- how far there is to go -----------------------------------------------------------------------

  /** After the record in hand. */
  function AfterRank(next: Next): nat {
    match next
    case DecodeNext(_) => 1
    case QueueNext(_) => 9
    case RefuseNext(_) => 6
    case ForgetNext(_) => 6
    case SentRawNext(_, _, _) => 10
    case SentNext(_) => 6
    case GoodbyeRawNext(_, _) => 4
    case GoodbyeNext => 0
    case ControlNext => 5
  }

  function WorkRank(work: Work): nat {
    match work
    case Halted => 0
    case Select => 5
    case Observing(_, next) => AfterRank(next) + 4
    case ObserveWait(_, _, next) => AfterRank(next) + 3
    case ObserveSend(_, next) => AfterRank(next) + 2
    case ObserveFailed(next) => AfterRank(next) + 1
    case Decoding(_) => 1
    case Queueing(_) => 9
    case QueueRefused(_) => 8
    case Charging(_, last) => if last then 2 else 7
    case HandingOver(_, last) => if last then 1 else 6
    case SendingPending => 6
    case HandOff => 4
    case HandOffCancel => 3
    case HandOffSend => 1
    case Encoding(_) => 11
    case Beginning(_, _, _) => 11
    case Handing(_, _, _) => 2
    case Awaiting(_, _, _) => 15
    case Releasing(last) => if last then 1 else 6
    case Disconnecting => 1
    case GoodbyeHanding(_) => 1
    case GoodbyeAwaiting(_) => 1
  }

  function DispatcherRank(s: State): nat {
    match s.rec.dispatcher
    case DispatcherHalted => 0
    case Draining => 2 * |s.rec.channel| + 2
    case Idle => 2 * |s.rec.channel| + 3
    case Delivering(_, last) => 2 * |s.rec.channel| + if last then 3 else 4
  }

  function OthersRank(s: State): nat {
    (if s.rec.finishing then 0 else 1) + DispatcherRank(s) + (if s.stopping then 0 else 1)
    + (if s.inb.reader == ReaderHalted then 0 else 1)
    + (match s.out.pump case Writing(_) => 2 case WriterIdle => 1 case WriterHalted => 0)
    + (if s.budget.closed.Some? then 0 else 1) + (if s.done then 0 else 1)
  }

  function Rank(s: State): nat {
    WorkRank(s.work) + OthersRank(s)
  }

  // ---- each step is enabled and nearer -------------------------------------------------------------------

  predicate Nearer(s: State, t: State) {
    Ending(t) && WorkRank(t.work) < WorkRank(s.work) && OthersRank(t) <= OthersRank(s)
  }

  lemma PumpAnswers(s: State)
    requires WriteFine(s) && s.work.Awaiting?
    ensures s.out.result.Some? || s.out.pump.Writing?
  {
  }

  /** Everything the others' rank is made of. */
  predicate OthersStay(s: State, t: State) {
    && t.inb.reader == s.inb.reader && t.out.pump == s.out.pump && t.rec == s.rec.(sequence := t.rec.sequence) && t.done == s.done
    && (s.stopping ==> t.stopping) && (s.budget.closed.Some? ==> t.budget.closed.Some?)
  }

  lemma StayNearer(s: State, t: State)
    requires OthersStay(s, t) && WorkRank(t.work) < WorkRank(s.work) && Ending(t)
    ensures Nearer(s, t)
  {
    hide WorkRank, Ending;
  }

  lemma RecordNearer(s: State, next: Next)
    ensures WorkRank(Recorded(s, next).work) <= AfterRank(next)
    ensures s.stopping ==> WorkRank(NotSubmitted(s, next).work) <= AfterRank(next) && NotSubmitted(s, next).stopping
  {
  }

  lemma ObserveRank(s: State, step: ObserveStep)
    requires s.budget.Sound() && s.stopping && CanObserve(s, step) && !step.Granted? && !step.Push?
    ensures
      var t := DoObserve(s, step);
      WorkRank(t.work) < WorkRank(s.work) && t.stopping && t.rec == s.rec
  {
    if s.work.Observing? || s.work.ObserveFailed? {
      RecordNearer(s, s.work.next);
      RecordThreads(s, s, s.work.next);
    }
    hide Reserve, Release, Cancel, Allowance.Sound, Recorded, NotSubmitted, AfterRank;
  }

  lemma ObserveNearer(s: State, step: ObserveStep)
    requires s.budget.Sound() && s.stopping && CanObserve(s, step) && !step.Granted? && !step.Push?
    requires s.budget.closed.Some? ==> DoObserve(s, step).budget.closed.Some?
    ensures Nearer(s, DoObserve(s, step))
  {
    ObserveThreads(s, step);
    ObserveRank(s, step);
    hide DoObserve, CanObserve, WorkRank, Allowance.Sound;
    StayNearer(s, DoObserve(s, step));
  }

  lemma QueueingRank(s: State, step: ArrivalStep)
    requires s.budget.Sound() && s.stopping && CanArrival(s, step)
    requires step.ReserveQueue? || step.QueueClosed? || step.ChargeArrival? || step.HandOver?
    ensures WorkRank(DoArrival(s, step).work) < WorkRank(s.work) && DoArrival(s, step).stopping
  {
    hide Reserve, Release, Charge, Allowance.Sound, AfterRank;
  }

  lemma ArrivalRank(s: State, step: ArrivalStep)
    requires s.budget.Sound() && s.stopping && CanArrival(s, step) && !(step.Decode? && step.result.Decoded?) && !step.SendStopped?
    ensures WorkRank(DoArrival(s, step).work) < WorkRank(s.work) && DoArrival(s, step).stopping
  {
    hide Cancel, Allowance.Sound, AfterRank;
    if step.ReserveQueue? || step.QueueClosed? || step.ChargeArrival? || step.HandOver? {
      QueueingRank(s, step);
      hide DoArrival, WorkRank;
    }
  }

  lemma ArrivalNearer(s: State, step: ArrivalStep)
    requires s.budget.Sound() && s.stopping && CanArrival(s, step) && !(step.Decode? && step.result.Decoded?) && !step.SendStopped?
    requires s.budget.closed.Some? ==> DoArrival(s, step).budget.closed.Some?
    ensures Nearer(s, DoArrival(s, step))
  {
    ArrivalThreads(s, step);
    ArrivalRank(s, step);
    hide DoArrival, CanArrival, WorkRank, Allowance.Sound;
    StayNearer(s, DoArrival(s, step));
  }

  /** The steps of a write that lead to its end. */
  predicate Winding(step: WriteStep) {
    match step
    case Encode(encoded) => encoded.EncodeFails?
    case Begin(_) => true
    case HandStopped => true
    case ReadResult(_, _) => true
    case ReleaseCall => true
    case GoodbyeGivenUp(_) => true
    case _ => step == BuildGoodbye(false, false)
  }

  lemma WriteRank(s: State, step: WriteStep)
    requires s.budget.Sound() && CanWrite(s, step) && Winding(step)
    ensures
      var t := DoWrite(s, step);
      && WorkRank(t.work) < WorkRank(s.work) && t.out.pump == s.out.pump && (s.stopping ==> t.stopping)
      && (step.BuildGoodbye? ==> t.work == Halted)
  {
    hide Release, Allowance.Sound;
  }

  lemma WriteNearer(s: State, step: WriteStep)
    requires s.budget.Sound() && CanWrite(s, step) && Winding(step) && (s.stopping || step.BuildGoodbye?)
    requires s.budget.closed.Some? ==> DoWrite(s, step).budget.closed.Some?
    ensures Nearer(s, DoWrite(s, step))
  {
    WriteThreads(s, step);
    WriteRank(s, step);
    hide DoWrite, CanWrite, WorkRank, Allowance.Sound;
    StayNearer(s, DoWrite(s, step));
  }

  /** What the coordinator's next step is, and is not. */
  predicate Chosen(step: Step) {
    match step
    case OfObserve(o) => !o.Granted? && !o.Push?
    case OfArrival(a) => !(a.Decode? && a.result.Decoded?) && !a.SendStopped?
    case OfWrite(w) => Winding(w)
    case OfSelect(c) => c == NoticeStop
    case OfPump(p) => p == WriteEnds(false)
    case _ => false
  }

  lemma CoordinatorChoice(s: State)
    requires s.work != Halted
    ensures Chosen(CoordinatorOnward(s)) && Own(CoordinatorOnward(s))
    ensures s.work == Disconnecting ==> CoordinatorOnward(s) == OfWrite(BuildGoodbye(false, false))
    ensures CoordinatorOnward(s).OfPump? ==> s.work.Awaiting?
  {
  }

  /** A chosen step is nearer, if the stream is stopping or this is the goodbye it does not say. */
  lemma ChosenNearer(s: State, step: Step)
    requires Safe(s) && Can(s, step) && Chosen(step) && (s.stopping || step == OfWrite(BuildGoodbye(false, false)))
    ensures
      var t := Do(s, step);
      Ending(t) && Rank(t) < Rank(s)
  {
    assert s.budget.Sound();
    StepKeepsClosed(s, step);
    hide Safe, Allowance.Sound, DoObserve, DoArrival, DoWrite, DoSelect, DoPump, WorkRank, OthersRank, CanObserve, CanArrival, CanWrite, Winding;
    match step {
      case OfObserve(o) => ObserveNearer(s, o);
      case OfArrival(a) => ArrivalNearer(s, a);
      case OfWrite(w) => WriteNearer(s, w);
      case OfSelect(c) => NoticeNearer(s);
      case OfPump(p) => AnswerNearer(s);
      case _ =>
    }
  }

  lemma CoordinatorNearer(s: State)
    requires Good(s) && Ending(s) && s.work != Halted
    ensures Can(s, CoordinatorOnward(s)) && Own(CoordinatorOnward(s))
    ensures
      var t := Do(s, CoordinatorOnward(s));
      Ending(t) && Rank(t) < Rank(s)
  {
    CoordinatorCan(s);
    CoordinatorChoice(s);
    assert Safe(s);
    hide Good, Safe, CoordinatorOnward, Do, Can, Rank, Chosen;
    ChosenNearer(s, CoordinatorOnward(s));
  }

  lemma KnownRequests(s: State)
    requires Conserved(s)
    ensures s.inb.pending.Some? ==> s.inb.pending.value.request < |s.budget.requests|
    ensures s.work.ObserveWait? ==> s.work.request < |s.budget.requests|
  {
    if s.inb.pending.Some? { StakeKnown(s, PENDING); }
    if s.work.ObserveWait? { StakeKnown(s, WORK); }
  }

  lemma EnabledOnward(s: State)
    requires Ending(s) && s.work != Halted
    requires s.inb.pending.Some? ==> s.inb.pending.value.request < |s.budget.requests|
    requires s.work.ObserveWait? ==> s.work.request < |s.budget.requests|
    requires s.work.Awaiting? ==> s.out.result.Some? || s.out.pump.Writing?
    requires s.work.SendingPending? || HandingOff(s.work) ==> s.inb.pending.Some?
    requires s.work.SendingPending? ==> |s.inb.queue| < s.cfg.maxItems
    ensures Can(s, CoordinatorOnward(s))
  {
  }

  lemma CoordinatorCan(s: State)
    requires Good(s) && Ending(s) && s.work != Halted
    ensures Can(s, CoordinatorOnward(s))
  {
    assert Safe(s) && Ordered(s) && Room(s) && Conserved(s) && WriteFine(s);
    hide Good, Safe, WriteFine, Conserved, Can, CoordinatorOnward;
    KnownRequests(s);
    if s.work.Awaiting? { PumpAnswers(s); }
    EnabledOnward(s);
  }

  lemma NoticeNearer(s: State)
    requires s.stopping && CanSelect(s, NoticeStop)
    ensures Nearer(s, DoSelect(s, NoticeStop))
  {
  }

  lemma AnswerNearer(s: State)
    requires s.stopping && CanPump(s, WriteEnds(false))
    ensures
      var t := DoPump(s, WriteEnds(false));
      t.work == s.work && t.stopping && OthersRank(t) < OthersRank(s)
  {
  }

  // ---- the others ------------------------------------------------------------------------------------------

  lemma DispatchNearer(s: State, step: DispatchStep)
    requires s.budget.Sound() && CanDispatch(s, step) && (step.Deliver? ==> step.accepted)
    requires s.budget.closed.Some? ==> DoDispatch(s, step).budget.closed.Some?
    requires step.TakeRecord? ==> s.rec.dispatcher == Draining
    ensures DoDispatch(s, step).work == s.work && OthersRank(DoDispatch(s, step)) < OthersRank(s)
  {
    hide Release, Allowance.Sound;
  }

  lemma PumpNearer(s: State, step: PumpStep)
    requires CanPump(s, step) && (step.ReadFails? || step.ReaderStops? || step.WriteEnds? || step.WriterStops?)
    ensures DoPump(s, step).work == s.work && OthersRank(DoPump(s, step)) < OthersRank(s)
  {
  }

  lemma EndNearer(s: State, step: EndStep)
    requires s.budget.Sound() && CanEnd(s, step)
    requires match step
             case FinishObserving => !s.rec.finishing
             case StopAfterDrain => !s.stopping
             case CloseBudget => s.budget.closed.None?
             case Finish => !s.done
             case Stop => false
    ensures DoEnd(s, step).work == s.work && OthersRank(DoEnd(s, step)) < OthersRank(s)
  {
    hide Allowance.Sound;
  }

  lemma OthersCan(s: State)
    requires s.work == Halted && !s.done
    ensures Can(s, OthersOnward(s)) && Own(OthersOnward(s))
    ensures
      match OthersOnward(s)
      case OfDispatch(d) => (d.Deliver? ==> d.accepted) && (d.TakeRecord? ==> s.rec.dispatcher == Draining)
      case OfPump(p) => p.ReadFails? || p.ReaderStops? || p.WriteEnds? || p.WriterStops?
      case OfEnd(FinishObserving) => !s.rec.finishing
      case OfEnd(StopAfterDrain) => !s.stopping
      case OfEnd(CloseBudget) => s.budget.closed.None?
      case OfEnd(e) => e == Finish
      case _ => false
  {
  }

  lemma OthersNearer(s: State)
    requires Good(s) && s.work == Halted && !s.done
    ensures Can(s, OthersOnward(s)) && Own(OthersOnward(s))
    ensures
      var t := Do(s, OthersOnward(s));
      t.work == Halted && Rank(t) < Rank(s)
  {
    var step := OthersOnward(s);
    assert Safe(s) && s.budget.Sound();
    OthersCan(s);
    StepKeepsClosed(s, step);
    hide Good, Safe, Allowance.Sound, OthersOnward, DoDispatch, DoPump, DoEnd, CanDispatch, CanPump, CanEnd, OthersRank, WorkRank;
    match step {
      case OfDispatch(d) => DispatchNearer(s, d);
      case OfPump(p) => PumpNearer(s, p);
      case OfEnd(e) => EndNearer(s, e);
      case _ =>
    }
  }

  lemma StepGood(s: State, step: Step)
    requires Good(s) && Can(s, step)
    ensures Good(Do(s, step))
  {
    assert s.budget.Sound();
    hide Safe, InboundOrder, WriteFine, RecordsFine, StopsFine, Do, Can, Allowance.Sound;
    StepSafe(s, step);
    StepOrder(s, step);
    StepWrites(s, step);
    StepRecords(s, step);
    StepStops(s, step);
  }

  predicate AllOwn(steps: seq<Step>) {
    forall k :: 0 <= k < |steps| ==> Own(steps[k])
  }

  lemma OnwardNearer(s: State)
    requires Good(s) && Ending(s) && !s.done
    ensures s.budget.Sound() && Can(s, Onward(s)) && Own(Onward(s))
    ensures
      var t := Do(s, Onward(s));
      Good(t) && Ending(t) && Rank(t) < Rank(s)
  {
    assert s.budget.Sound();
    if s.work == Halted { OthersNearer(s); } else { CoordinatorNearer(s); }
    hide Good, Rank, OthersOnward, CoordinatorOnward, Do, Can, Own, Allowance.Sound;
    StepGood(s, Onward(s));
  }

  /** The run can be made from `s`, by its own goroutines, and ends it. */
  ghost predicate EndsIt(s: State, steps: seq<Step>) {
    s.budget.Sound() && CanAll(s, steps) && AllOwn(steps) && DoAll(s, steps).done
  }

  lemma OneOut(s: State, step: Step, more: seq<Step>)
    requires s.budget.Sound() && Can(s, step) && Own(step) && EndsIt(Do(s, step), more)
    ensures EndsIt(s, [step] + more)
  {
    hide Do, Can, Own, Allowance.Sound;
    var steps := [step] + more;
    assert steps[1..] == more && steps[0] == step;
  }

  /** From any good state on its way out there is a run of the stream's own steps to the end. */
  lemma {:induction false} WayOut(s: State) returns (steps: seq<Step>)
    requires Good(s) && Ending(s)
    ensures EndsIt(s, steps)
    decreases Rank(s)
  {
    if s.done {
      assert s.budget.Sound();
      steps := [];
    } else {
      hide Good, Ending, Rank, Onward, Do, Can, Own, EndsIt;
      OnwardNearer(s);
      var more := WayOut(Do(s, Onward(s)));
      OneOut(s, Onward(s), more);
      steps := [Onward(s)] + more;
    }
  }

  // ---- every run -----------------------------------------------------------------------------------------------

  /**
   Whatever has happened, a stream that is told to stop, that has taken a shutdown or whose
   coordinator has left can end, and nothing but its own goroutines is needed for it.
   */
  lemma CanAlwaysEnd(cfg: Config, steps: seq<Step>) returns (more: seq<Step>)
    requires CanAll(Init(cfg), steps) && Ending(DoAll(Init(cfg), steps))
    ensures CanAll(DoAll(Init(cfg), steps), more) && AllOwn(more)
    ensures
      var t := DoAll(DoAll(Init(cfg), steps), more);
      t.done && t.stopping && t.work == Halted && t.inb.reader == ReaderHalted && t.out.pump == WriterHalted
      && t.rec.dispatcher == DispatcherHalted && t.budget.closed.Some?
  {
    hide CanAll, DoAll, Init, Allowance.Sound, Ending;
    EveryRunGood(cfg, steps);
    var s := DoAll(Init(cfg), steps);
    more := WayOut(s);
    Then(Init(cfg), steps, more);
    EveryRunGood(cfg, steps + more);
    assert ThreadsFine(DoAll(s, more));
  }

  /** Telling it to stop, or shutting it down, is enough to be on the way out; and it never leaves that way. */
  lemma EndingStays(s: State, step: Step)
    requires s.budget.Sound() && Can(s, step)
    ensures step == OfEnd(Stop) || step == OfSelect(AcceptShutdown) ==> Ending(Do(s, step))
    ensures s.stopping ==> Ending(Do(s, step))
  {
    StopsExactly(s, step);
    hide Release, Close, Allowance.Sound, Breaks;
    if step == OfSelect(AcceptShutdown) { assert Do(s, step).work == Disconnecting; }
    hide Do;
  }
}
