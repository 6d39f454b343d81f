/**
 Observations over every run: until the stream stops, the records given to the sink,
 then those still travelling, are the sequence 1, 2, 3, …, each packet's record after
 the raw record of its frame; and a dispatcher that finishes without a stop has given
 the sink every record there will ever be.
 */
module StreamRecords {
  import opened Wrappers
  import opened Budget
  import opened Stream
  import opened StreamBalance
  import opened StreamConservation
  import opened StreamSafe
  import opened StreamInbound
  import opened StreamWrites

  // ---- where records are -----------------------------------------------------------------

  function AtDispatcher(d: Dispatcher): seq<Record> {
    if d.Delivering? then [d.record] else []
  }

  function AtCoordinator(work: Work): seq<Record> {
    if work.ObserveSend? then [work.record] else []
  }

  /** What the sink was given, then what it is being given, then what is queued, then what is being queued. */
  function Trail(s: State): seq<Record> {
    s.rec.delivered + AtDispatcher(s.rec.dispatcher) + s.rec.channel + AtCoordinator(s.work)
  }

  /** Nothing missing, nothing twice, nothing out of order. */
  predicate Counted(trail: seq<Record>, last: nat) {
    |trail| == last && forall i :: 0 <= i < |trail| ==> trail[i].sequence == i + 1
  }

  /** In order, with whatever a stopped stream did not submit missing. */
  predicate Rising(trail: seq<Record>, last: nat) {
    && (forall i, k :: 0 <= i < k < |trail| ==> trail[i].sequence < trail[k].sequence)
    && (forall i :: 0 <= i < |trail| ==> 1 <= trail[i].sequence <= last)
  }

  predicate RawOf(r: Record, frame: nat, inbound: bool) {
    r.input.stage == RawFrame && r.input.frame == frame && r.input.inbound == inbound
  }

  predicate RawSeen(trail: seq<Record>, frame: nat, inbound: bool) {
    exists i :: 0 <= i < |trail| && RawOf(trail[i], frame, inbound)
  }

  predicate RawFirst(trail: seq<Record>) {
    forall i :: 0 <= i < |trail| && trail[i].input.stage == PacketBody ==>
      RawSeen(trail[..i], trail[i].input.frame, trail[i].input.inbound)
  }

  /** The frame whose packet record is to come, its raw record having been made. */
  function Upcoming(work: Work): Option<(nat, bool)> {
    match work
    case Observing(input, _) => if input.stage == PacketBody then Some((input.frame, input.inbound)) else None
    case ObserveWait(input, _, _) => if input.stage == PacketBody then Some((input.frame, input.inbound)) else None
    case Decoding(frame) => Some((frame, true))
    case _ => None
  }

  /** The record in hand is the one the next step is about. */
  predicate Matching(input: Input, next: Next) {
    match next
    case DecodeNext(f) => input.stage == RawFrame && input.frame == f && input.inbound
    case QueueNext(a) => input.stage == PacketBody && input.frame == a.frame && input.inbound
    case SentRawNext(_, f, _) => input.stage == RawFrame && input.frame == f && !input.inbound
    case SentNext(_) => input.stage == PacketBody && !input.inbound
    case GoodbyeRawNext(f, _) => input.stage == RawFrame && input.frame == f && !input.inbound
    case GoodbyeNext => input.stage == PacketBody && !input.inbound
    case RefuseNext(_) => input.stage == Rejected && !input.inbound
    case ForgetNext(_) => input.stage == Rejected && !input.inbound
    case ControlNext => input.stage == Secret && !input.inbound
  }

  predicate WorkMatches(work: Work) {
    match work
    case Observing(input, next) => Matching(input, next)
    case ObserveWait(input, _, next) => Matching(input, next)
    case ObserveSend(record, next) => Matching(record.input, next)
    case _ => true
  }

  predicate Drainer(s: State) {
    && (s.rec.finishing ==> s.work == Halted)
    && (s.rec.dispatcher == Draining || (s.rec.dispatcher.Delivering? && s.rec.dispatcher.last) ==> s.rec.finishing)
    && (s.cfg.sink && !s.stopping && s.rec.dispatcher == DispatcherHalted ==> s.rec.finishing && s.rec.channel == [])
  }

  predicate RecordsFine(s: State) {
    && Rising(Trail(s), s.rec.sequence)
    && WorkMatches(s.work)
    && Drainer(s)
    && (!s.stopping && s.cfg.sink ==>
          && Counted(Trail(s), s.rec.sequence)
          && RawFirst(Trail(s))
          && (Upcoming(s.work).Some? ==> RawSeen(Trail(s), Upcoming(s.work).value.0, Upcoming(s.work).value.1)))
  }

  // ---- growing and shortening the trail -------------------------------------------------------

  lemma AppendRecord(trail: seq<Record>, r: Record, last: nat)
    requires r.sequence == last + 1
    ensures Rising(trail, last) ==> Rising(trail + [r], last + 1)
    ensures Counted(trail, last) ==> Counted(trail + [r], last + 1)
    ensures RawFirst(trail) && (r.input.stage == PacketBody ==> RawSeen(trail, r.input.frame, r.input.inbound)) ==>
              RawFirst(trail + [r])
  {
    var longer := trail + [r];
    assert longer[..|trail|] == trail;
    assert forall i :: 0 <= i < |trail| ==> longer[..i] == trail[..i];
  }

  // ---- steps that touch no record ----------------------------------------------------------------

  predicate RecordsStay(s: State, t: State) {
    t.cfg == s.cfg && t.rec == s.rec && (s.stopping ==> t.stopping)
  }

  lemma QuietFine(s: State, t: State)
    requires RecordsFine(s) && RecordsStay(s, t) && AtCoordinator(t.work) == AtCoordinator(s.work)
    requires WorkMatches(t.work) && Drainer(t)
    requires Upcoming(t.work).None? || Upcoming(t.work) == Upcoming(s.work) || t.stopping || !t.cfg.sink
    ensures RecordsFine(t)
  {
    hide Upcoming, WorkMatches, AtCoordinator, Rising, Counted, RawFirst, RawSeen;
  }

  lemma RecordsElsewhere(s: State, step: Step)
    requires s.budget.Sound() && RecordsFine(s) && Can(s, step)
    requires step.OfCall? || step.OfRead? || step.OfPump?
    ensures RecordsFine(Do(s, step))
  {
    match step {
      case OfCall(c) => CallLeaves(s, c);
      case _ =>
    }
    var t := Do(s, step);
    assert t.work == s.work && RecordsStay(s, t) by { KeepsConfig(s, step); }
    hide Do, Can;
    QuietFine(s, t);
  }

  lemma CallKeepsConfig(s: State, step: CallStep)
    requires s.budget.Sound() && CanCall(s, step)
    ensures DoCall(s, step).cfg == s.cfg
  {
    hide Reserve, Release, Cancel, Allowance.Sound;
  }

  lemma WriteKeepsConfig(s: State, step: WriteStep)
    requires s.budget.Sound() && CanWrite(s, step)
    ensures DoWrite(s, step).cfg == s.cfg
  {
    hide Release, Allowance.Sound;
  }

  lemma KeepsConfig(s: State, step: Step)
    requires s.budget.Sound() && Can(s, step)
    ensures Do(s, step).cfg == s.cfg
  {
    hide Reserve, Release, Cancel, Close, Allowance.Sound, DoCall, DoWrite, Report;
    match step {
      case OfCall(c) => CallKeepsConfig(s, c);
      case OfWrite(w) => WriteKeepsConfig(s, w);
      case OfObserve(o) => ObserveGoesOn(s, o); hide DoObserve;
      case OfArrival(a) => ArrivalKeepsConfig(s, a); hide DoArrival;
      case _ =>
    }
  }

  lemma {:induction false} KeepsItsConfig(s: State, steps: seq<Step>)
    requires s.budget.Sound() && CanAll(s, steps)
    ensures DoAll(s, steps).cfg == s.cfg
    decreases |steps|
  {
    if steps != [] {
      KeepsConfig(s, steps[0]);
      KeepsItsConfig(Do(s, steps[0]), steps[1..]);
    }
  }

  lemma RecordsEnd(s: State, step: EndStep)
    requires s.budget.Sound() && RecordsFine(s) && CanEnd(s, step)
    ensures RecordsFine(DoEnd(s, step))
  {
    hide Close, Allowance.Sound, Rising, Counted, RawFirst, RawSeen;
    assert Trail(DoEnd(s, step)) == Trail(s);
  }

  // ---- the dispatcher --------------------------------------------------------------------------------

  lemma DispatchTrail(s: State, step: DispatchStep)
    requires s.budget.Sound() && CanDispatch(s, step)
    ensures Trail(DoDispatch(s, step)) == Trail(s)
  {
    hide Release, Allowance.Sound, AtCoordinator;
  }

  lemma DispatchDrains(s: State, step: DispatchStep)
    requires s.budget.Sound() && Drainer(s) && CanDispatch(s, step)
    ensures
      var t := DoDispatch(s, step);
      && Drainer(t) && t.work == s.work && t.cfg == s.cfg && t.rec.sequence == s.rec.sequence && (s.stopping ==> t.stopping)
  {
    hide Release, Allowance.Sound;
  }

  lemma RecordsDispatch(s: State, step: DispatchStep)
    requires s.budget.Sound() && RecordsFine(s) && CanDispatch(s, step)
    ensures RecordsFine(DoDispatch(s, step))
  {
    DispatchTrail(s, step);
    DispatchDrains(s, step);
    hide DoDispatch, CanDispatch, Trail, Drainer, Allowance.Sound, Rising, Counted, RawFirst, RawSeen, Upcoming, WorkMatches;
  }

  // ---- the coordinator ----------------------------------------------------------------------------------

  lemma RecordsSelect(s: State, step: SelectStep)
    requires RecordsFine(s) && CanSelect(s, step)
    ensures RecordsFine(DoSelect(s, step))
  {
    QuietFine(s, DoSelect(s, step));
  }

  lemma WriteQuiet(s: State, step: WriteStep)
    requires s.budget.Sound() && CanWrite(s, step)
    ensures
      var t := DoWrite(s, step);
      && RecordsStay(s, t) && AtCoordinator(t.work) == AtCoordinator(s.work) == []
      && WorkMatches(t.work) && Upcoming(t.work).None? && s.work != Halted
  {
    hide Release, Allowance.Sound, Report;
    if !step.ReleaseCall? { WriteLeavesAll(s, step); }
  }

  lemma RecordsWrite(s: State, step: WriteStep)
    requires s.budget.Sound() && RecordsFine(s) && CanWrite(s, step)
    ensures RecordsFine(DoWrite(s, step))
  {
    WriteQuiet(s, step);
    hide DoWrite, Rising, Counted, RawFirst, RawSeen, AtCoordinator, WorkMatches, Upcoming;
    QuietFine(s, DoWrite(s, step));
  }

  lemma ArrivalQuiet(s: State, step: ArrivalStep)
    requires s.budget.Sound() && CanArrival(s, step)
    ensures
      var t := DoArrival(s, step);
      && RecordsStay(s, t) && AtCoordinator(t.work) == AtCoordinator(s.work) == []
      && WorkMatches(t.work) && (Upcoming(t.work).None? || Upcoming(t.work) == Upcoming(s.work)) && s.work != Halted
  {
    hide Reserve, Release, Cancel, Allowance.Sound;
  }

  lemma RecordsArrival(s: State, step: ArrivalStep)
    requires s.budget.Sound() && RecordsFine(s) && CanArrival(s, step)
    ensures RecordsFine(DoArrival(s, step))
  {
    ArrivalQuiet(s, step);
    hide DoArrival, Rising, Counted, RawFirst, RawSeen, AtCoordinator, WorkMatches, Upcoming;
    QuietFine(s, DoArrival(s, step));
  }

  /** Going on after a record: the record just made is the raw record the next one needs. */
  lemma RecordedMatches(s: State, next: Next, input: Input)
    requires Matching(input, next)
    ensures
      var t := Recorded(s, next);
      && t.cfg == s.cfg && t.rec == s.rec && t.stopping == s.stopping
      && WorkMatches(t.work) && AtCoordinator(t.work) == []
      && (Upcoming(t.work).Some? ==>
            input.stage == RawFrame && Upcoming(t.work).value == (input.frame, input.inbound))
  {
  }

  lemma NotSubmittedMatches(s: State, next: Next)
    ensures
      var t := NotSubmitted(s, next);
      && RecordsStay(s, t) && WorkMatches(t.work) && AtCoordinator(t.work) == []
      && (Upcoming(t.work).Some? ==> t.stopping)
  {
  }

  lemma AskRecords(s: State)
    requires s.budget.Sound() && RecordsFine(s) && CanObserve(s, Ask)
    ensures RecordsFine(DoObserve(s, Ask))
  {
    var t := DoObserve(s, Ask);
    RecordedMatches(s, s.work.next, s.work.input);
    hide Reserve, Allowance.Sound, Recorded, Rising, Counted, RawFirst, RawSeen;
    QuietFine(s, t);
  }

  lemma PushRecords(s: State)
    requires s.budget.Sound() && RecordsFine(s) && CanObserve(s, Push)
    ensures RecordsFine(DoObserve(s, Push))
  {
    var t := DoObserve(s, Push);
    var r := s.work.record;
    RecordedMatches(s.(rec := s.rec.(channel := s.rec.channel + [r])), s.work.next, r.input);
    hide Recorded, Rising, Counted, RawFirst, Upcoming, WorkMatches, Allowance.Sound;
    assert Trail(t) == Trail(s);
    if r.input.stage == RawFrame {
      assert RawOf(Trail(t)[|Trail(t)| - 1], r.input.frame, r.input.inbound);
    }
  }

  lemma GrantedRecords(s: State)
    requires s.budget.Sound() && RecordsFine(s) && CanObserve(s, Granted)
    ensures RecordsFine(DoObserve(s, Granted))
  {
    var t := DoObserve(s, Granted);
    if s.budget.requests[s.work.request].granted {
      var r := Record(s.rec.sequence + 1, s.work.input);
      assert Trail(t) == Trail(s) + [r];
      AppendRecord(Trail(s), r, s.rec.sequence);
      hide Rising, Counted, RawFirst, RawSeen, Trail, Allowance.Sound;
    } else {
      hide Rising, Counted, RawFirst, RawSeen, Allowance.Sound;
      QuietFine(s, t);
    }
  }

  lemma StopRecords(s: State, step: ObserveStep)
    requires s.budget.Sound() && RecordsFine(s) && CanObserve(s, step) && (step.StopWaiting? || step.StopSending?)
    ensures RecordsFine(DoObserve(s, step))
  {
    hide Cancel, Release, Allowance.Sound;
    var t := DoObserve(s, step);
    assert Trail(t) == Trail(s)[..|Trail(t)|];
    hide Trail;
  }

  lemma ResumeRecords(s: State)
    requires s.budget.Sound() && RecordsFine(s) && CanObserve(s, Resume)
    ensures RecordsFine(DoObserve(s, Resume))
  {
    NotSubmittedMatches(s, s.work.next);
    hide NotSubmitted, Rising, Counted, RawFirst, RawSeen, Allowance.Sound;
    QuietFine(s, DoObserve(s, Resume));
  }

  lemma RecordsObserve(s: State, step: ObserveStep)
    requires s.budget.Sound() && RecordsFine(s) && CanObserve(s, step)
    ensures RecordsFine(DoObserve(s, step))
  {
    hide RecordsFine, DoObserve, Allowance.Sound;
    match step {
      case Ask => AskRecords(s);
      case Granted => GrantedRecords(s);
      case Push => PushRecords(s);
      case Resume => ResumeRecords(s);
      case _ => StopRecords(s, step);
    }
  }

  // ---- every run --------------------------------------------------------------------------------------------

  lemma StepRecords(s: State, step: Step)
    requires s.budget.Sound() && RecordsFine(s) && Can(s, step)
    ensures RecordsFine(Do(s, step))
  {
    hide RecordsFine, Allowance.Sound;
    match step {
      case OfSelect(c) => RecordsSelect(s, c);
      case OfObserve(o) => RecordsObserve(s, o);
      case OfArrival(a) => RecordsArrival(s, a);
      case OfWrite(w) => RecordsWrite(s, w);
      case OfDispatch(d) => RecordsDispatch(s, d);
      case OfEnd(e) => RecordsEnd(s, e);
      case _ => RecordsElsewhere(s, step);
    }
  }

  lemma {:induction false} RunRecords(s: State, steps: seq<Step>)
    requires s.budget.Sound() && RecordsFine(s) && CanAll(s, steps)
    ensures RecordsFine(DoAll(s, steps))
    decreases |steps|
  {
    if steps != [] {
      StepRecords(s, steps[0]);
      RunRecords(Do(s, steps[0]), steps[1..]);
    }
  }

  lemma InitRecords(cfg: Config)
    ensures RecordsFine(Init(cfg))
  {
  }

  // ---- what it comes to ----------------------------------------------------------------------------------------

  lemma RunFromStart(cfg: Config, steps: seq<Step>)
    requires CanAll(Init(cfg), steps)
    ensures RecordsFine(DoAll(Init(cfg), steps))
  {
    InitRecords(cfg);
    hide RecordsFine, Init, CanAll, DoAll;
    RunRecords(Init(cfg), steps);
  }

  /** In every run not yet stopped, the sink has been given exactly records 1 to k, a packet's after its frame's raw record. */
  lemma SinkSees(cfg: Config, steps: seq<Step>)
    requires CanAll(Init(cfg), steps) && DoAll(Init(cfg), steps).cfg.sink && !DoAll(Init(cfg), steps).stopping
    ensures
      var given := DoAll(Init(cfg), steps).rec.delivered;
      Counted(given, |given|) && RawFirst(given)
  {
    hide CanAll, DoAll, Init, Allowance.Sound, WorkMatches, Drainer, Rising, Upcoming;
    RunFromStart(cfg, steps);
    var s := DoAll(Init(cfg), steps);
    var n := |s.rec.delivered|;
    assert forall i :: 0 <= i < n ==> s.rec.delivered[i] == Trail(s)[i] && s.rec.delivered[..i] == Trail(s)[..i];
  }

  /** The dispatcher ends without a stop only once the sink has every record, and no more can follow. */
  lemma DrainedBeforeStop(cfg: Config, steps: seq<Step>)
    requires CanAll(Init(cfg), steps) && DoAll(Init(cfg), steps).cfg.sink && !DoAll(Init(cfg), steps).stopping
    requires DoAll(Init(cfg), steps).rec.dispatcher == DispatcherHalted
    ensures
      var s := DoAll(Init(cfg), steps);
      s.work == Halted && Counted(s.rec.delivered, s.rec.sequence)
  {
    hide CanAll, DoAll, Init, Allowance.Sound, WorkMatches, Rising, Upcoming, RawFirst;
    RunFromStart(cfg, steps);
    var s := DoAll(Init(cfg), steps);
    assert Trail(s) == s.rec.delivered;
  }

  /** A stream stops itself at the end only once the sink has every record, and no more can follow. */
  lemma StopsItselfDrained(cfg: Config, steps: seq<Step>)
    requires CanAll(Init(cfg), steps) && cfg.sink && !DoAll(Init(cfg), steps).stopping
    requires Can(DoAll(Init(cfg), steps), OfEnd(StopAfterDrain))
    ensures
      var s := DoAll(Init(cfg), steps);
      s.work == Halted && Counted(s.rec.delivered, s.rec.sequence)
  {
    KeepsItsConfig(Init(cfg), steps);
    hide CanAll, DoAll, Counted;
    DrainedBeforeStop(cfg, steps);
  }
}
