/**
 Nothing goes unobserved (observation.go). Until the stream stops, every packet decoded and
 every frame a Write put on the wire has a raw record and a packet record, but for the one
 the coordinator is recording.
 */
module StreamObserved {
  import opened Wrappers
  import opened Budget
  import opened Stream
  import opened StreamBalance
  import opened StreamConservation
  import opened StreamSafety
  import opened StreamSafe
  import opened StreamInbound
  import opened StreamDrops
  import opened StreamWrites
  import opened StreamRecords
  import opened StreamStops

  predicate BodyOf(r: Record, frame: nat, inbound: bool) {
    r.input.stage == PacketBody && r.input.frame == frame && r.input.inbound == inbound
  }

  predicate BodySeen(trail: seq<Record>, frame: nat, inbound: bool) {
    exists i :: 0 <= i < |trail| && BodyOf(trail[i], frame, inbound)
  }

  predicate BothSeen(trail: seq<Record>, frame: nat, inbound: bool) {
    RawSeen(trail, frame, inbound) && BodySeen(trail, frame, inbound)
  }

  /** The packet's own record is the next thing the coordinator makes, or could not make. */
  predicate BodyDue(work: Work, frame: nat) {
    match work
    case Observing(_, next) => next.QueueNext? && next.arrival.frame == frame
    case ObserveWait(_, _, next) => next.QueueNext? && next.arrival.frame == frame
    case ObserveFailed(next) => next.QueueNext? && next.arrival.frame == frame
    case _ => false
  }

  /** The frame was written, and its records are still to be made. */
  predicate SentDue(work: Work, frame: nat) {
    match work
    case Awaiting(_, f, _) => f == frame
    case Observing(input, next) => (next.SentRawNext? || next.SentNext?) && input.frame == frame
    case ObserveWait(input, _, next) => (next.SentRawNext? || next.SentNext?) && input.frame == frame
    case ObserveSend(record, next) => next.SentRawNext? && record.input.frame == frame
    case ObserveFailed(next) => next.SentRawNext? || next.SentNext?
    case _ => false
  }

  predicate ArrivalsSeen(s: State) {
    forall i :: 0 <= i < |s.inb.decoded| ==>
      RawSeen(Trail(s), s.inb.decoded[i].frame, true)
      && (BodySeen(Trail(s), s.inb.decoded[i].frame, true) || BodyDue(s.work, s.inb.decoded[i].frame))
  }

  /** Only the last frame handed to the pump can still be waiting for its records. */
  predicate WritesSeen(s: State) {
    forall i :: 0 <= i < |s.out.wire| && s.out.wire[i].CallJob? ==>
      || BothSeen(Trail(s), s.out.wire[i].frame, false)
      || (i == |s.out.wire| - 1 && s.out.wire == s.out.handed && SentDue(s.work, s.out.wire[i].frame))
  }

  predicate AllSeen(s: State) {
    s.cfg.sink && !s.stopping ==> ArrivalsSeen(s) && WritesSeen(s)
  }

  // ---- the trail grows ------------------------------------------------------------------------------

  lemma SeenLonger(a: seq<Record>, b: seq<Record>, frame: nat, inbound: bool)
    requires a <= b
    ensures RawSeen(a, frame, inbound) ==> RawSeen(b, frame, inbound)
    ensures BodySeen(a, frame, inbound) ==> BodySeen(b, frame, inbound)
  {
    if i :| 0 <= i < |a| && RawOf(a[i], frame, inbound) { assert RawOf(b[i], frame, inbound); }
    if i :| 0 <= i < |a| && BodyOf(a[i], frame, inbound) { assert BodyOf(b[i], frame, inbound); }
  }

  /** A step after which every record and every duty is still there. */
  ghost predicate Quiet(s: State, t: State) {
    && t.cfg == s.cfg && (s.stopping ==> t.stopping)
    && t.inb.decoded == s.inb.decoded && t.out.wire == s.out.wire
    && (!t.stopping ==> Trail(s) <= Trail(t))
    && (!t.stopping ==> forall f :: BodyDue(s.work, f) ==> BodyDue(t.work, f) || BodySeen(Trail(t), f, true))
    && (!t.stopping ==> forall f :: SentDue(s.work, f) ==>
          (SentDue(t.work, f) && t.out.handed == s.out.handed) || BothSeen(Trail(t), f, false))
  }

  lemma QuietSeen(s: State, t: State)
    requires AllSeen(s) && Quiet(s, t)
    ensures AllSeen(t)
  {
    hide Trail, BodyDue, SentDue, RawSeen, BodySeen;
    if t.cfg.sink && !t.stopping {
      forall i | 0 <= i < |t.inb.decoded|
        ensures RawSeen(Trail(t), t.inb.decoded[i].frame, true)
        ensures BodySeen(Trail(t), t.inb.decoded[i].frame, true) || BodyDue(t.work, t.inb.decoded[i].frame)
      {
        SeenLonger(Trail(s), Trail(t), t.inb.decoded[i].frame, true);
      }
      forall i | 0 <= i < |t.out.wire| && t.out.wire[i].CallJob?
        ensures BothSeen(Trail(t), t.out.wire[i].frame, false)
             || (i == |t.out.wire| - 1 && t.out.wire == t.out.handed && SentDue(t.work, t.out.wire[i].frame))
      {
        SeenLonger(Trail(s), Trail(t), t.out.wire[i].frame, false);
      }
    }
  }

  // ---- steps of the other goroutines ------------------------------------------------------------------

  lemma ElsewhereSeen(s: State, t: State)
    requires AllSeen(s) && t.work == s.work && t.cfg == s.cfg && (s.stopping ==> t.stopping)
    requires t.inb.decoded == s.inb.decoded && t.out.wire == s.out.wire && t.out.handed == s.out.handed
    requires Trail(t) == Trail(s)
    ensures AllSeen(t)
  {
    hide Trail, BodyDue, SentDue, RawSeen, BodySeen;
  }

  lemma CallSeen(s: State, step: CallStep)
    requires s.budget.Sound() && AllSeen(s) && CanCall(s, step)
    ensures AllSeen(DoCall(s, step))
  {
    CallLeaves(s, step);
    CallKeepsConfig(s, step);
    CallKeepsWire(s, step);
    hide DoCall, CanCall, AllSeen, Allowance.Sound;
    ElsewhereSeen(s, DoCall(s, step));
  }

  lemma CallKeepsWire(s: State, step: CallStep)
    requires s.budget.Sound() && CanCall(s, step)
    ensures var t := DoCall(s, step); t.out.wire == s.out.wire && t.out.handed == s.out.handed && t.out.pump == s.out.pump
  {
    hide Reserve, Release, Cancel, Allowance.Sound;
  }

  lemma ReadSeen(s: State, step: ReadStep)
    requires s.budget.Sound() && AllSeen(s) && CanRead(s, step)
    ensures AllSeen(DoRead(s, step))
  {
    hide AllSeen, Release, Allowance.Sound;
    ElsewhereSeen(s, DoRead(s, step));
  }

  lemma DispatchSeen(s: State, step: DispatchStep)
    requires s.budget.Sound() && AllSeen(s) && CanDispatch(s, step)
    ensures AllSeen(DoDispatch(s, step))
  {
    hide AllSeen, Release, Allowance.Sound, AtCoordinator;
    assert Trail(DoDispatch(s, step)) == Trail(s);
    ElsewhereSeen(s, DoDispatch(s, step));
  }

  lemma EndSeen(s: State, step: EndStep)
    requires s.budget.Sound() && AllSeen(s) && CanEnd(s, step)
    ensures AllSeen(DoEnd(s, step))
  {
    hide AllSeen, Close, Allowance.Sound;
    assert Trail(DoEnd(s, step)) == Trail(s);
    ElsewhereSeen(s, DoEnd(s, step));
  }

  lemma PumpSeen(s: State, step: PumpStep)
    requires AllSeen(s) && WriteFine(s) && CanPump(s, step)
    ensures AllSeen(DoPump(s, step))
  {
    var t := DoPump(s, step);
    if step.WriteEnds? && step.ok {
      WrittenSeen(s);
    } else {
      hide AllSeen, WriteFine;
      ElsewhereSeen(s, t);
    }
  }

  lemma JobAwaited(out: Outbound, work: Work)
    requires Frames(out, work) && out.pump.Writing?
    ensures out.handed == out.wire + [out.pump.job] && out.wire != out.handed
    ensures out.pump.job.CallJob? ==> SentDue(work, out.pump.job.frame)
  {
    hide InTurn, GoodbyeLast;
    WireEnds(out.handed, out.wire, out.pump.job);
  }

  /** The frame just written is the one the coordinator awaits, and every earlier one has its records. */
  lemma WrittenSeen(s: State)
    requires AllSeen(s) && WriteFine(s) && CanPump(s, WriteEnds(true))
    ensures AllSeen(DoPump(s, WriteEnds(true)))
  {
    var t := DoPump(s, WriteEnds(true));
    var n := |s.out.wire|;
    assert Frames(s.out, s.work);
    hide WriteFine, Frames, BodyDue, SentDue, RawSeen, BodySeen;
    JobAwaited(s.out, s.work);
    assert Trail(t) == Trail(s);
    hide Trail;
    assert t.out.wire == t.out.handed == s.out.wire + [s.out.pump.job];
    forall i | 0 <= i < |t.out.wire| && t.out.wire[i].CallJob? && t.cfg.sink && !t.stopping
      ensures BothSeen(Trail(t), t.out.wire[i].frame, false)
           || (i == |t.out.wire| - 1 && t.out.wire == t.out.handed && SentDue(t.work, t.out.wire[i].frame))
    {
      if i < n { assert t.out.wire[i] == s.out.wire[i]; }
    }
  }

  // ---- the coordinator's steps ------------------------------------------------------------------------------

  lemma SelectSeen(s: State, step: SelectStep)
    requires AllSeen(s) && CanSelect(s, step)
    ensures AllSeen(DoSelect(s, step))
  {
    var t := DoSelect(s, step);
    assert Trail(t) == Trail(s);
    hide AllSeen, Trail;
    QuietSeen(s, t);
  }

  lemma ArrivalTrail(s: State, step: ArrivalStep)
    requires s.budget.Sound() && CanArrival(s, step)
    ensures
      var t := DoArrival(s, step);
      && t.cfg == s.cfg && t.rec == s.rec && t.out == s.out && (s.stopping ==> t.stopping)
      && AtCoordinator(s.work) == AtCoordinator(t.work) == []
      && (forall f :: !SentDue(s.work, f) && !BodyDue(s.work, f))
      && t.inb.decoded == s.inb.decoded + JustDecoded(s, OfArrival(step))
      && (step.Decode? && step.result.Decoded? ==> BodyDue(t.work, s.work.frame))
  {
    hide Reserve, Release, Cancel, Charge, Allowance.Sound;
  }

  lemma ArrivalSeen(s: State, step: ArrivalStep)
    requires s.budget.Sound() && AllSeen(s) && RecordsFine(s) && CanArrival(s, step)
    ensures AllSeen(DoArrival(s, step))
  {
    ArrivalTrail(s, step);
    var t := DoArrival(s, step);
    assert s.cfg.sink && !s.stopping && s.work.Decoding? ==> RawSeen(Trail(s), s.work.frame, true);
    assert JustDecoded(s, OfArrival(step)) != [] ==>
      s.work.Decoding? && JustDecoded(s, OfArrival(step))[0].frame == s.work.frame && |JustDecoded(s, OfArrival(step))| == 1;
    assert JustDecoded(s, OfArrival(step)) != [] ==> BodyDue(t.work, s.work.frame);
    assert Trail(t) == Trail(s);
    hide DoArrival, CanArrival, RecordsFine, Trail, RawSeen, BodySeen, SentDue, BodyDue, JustDecoded, Allowance.Sound;
    var more := JustDecoded(s, OfArrival(step));
    if t.cfg.sink && !t.stopping {
      forall i | 0 <= i < |t.inb.decoded|
        ensures RawSeen(Trail(t), t.inb.decoded[i].frame, true)
        ensures BodySeen(Trail(t), t.inb.decoded[i].frame, true) || BodyDue(t.work, t.inb.decoded[i].frame)
      {
        if i < |s.inb.decoded| { assert t.inb.decoded[i] == s.inb.decoded[i]; }
      }
    }
  }

  /** A frame the pump has answered for waits for its records; no other step of a write has any to wait for. */
  lemma WriteDue(s: State, step: WriteStep)
    requires s.budget.Sound() && CanWrite(s, step)
    ensures
      var t := DoWrite(s, step);
      && t.cfg == s.cfg && t.rec == s.rec && t.inb == s.inb && t.out.wire == s.out.wire && (s.stopping ==> t.stopping)
      && AtCoordinator(s.work) == AtCoordinator(t.work) == []
      && (forall f :: !BodyDue(s.work, f))
      && (t.stopping || forall f :: SentDue(s.work, f) ==> SentDue(t.work, f) && t.out.handed == s.out.handed)
  {
    hide Release, Allowance.Sound;
  }

  lemma WriteSeen(s: State, step: WriteStep)
    requires s.budget.Sound() && AllSeen(s) && CanWrite(s, step)
    ensures AllSeen(DoWrite(s, step))
  {
    WriteDue(s, step);
    var t := DoWrite(s, step);
    assert Trail(t) == Trail(s);
    hide DoWrite, CanWrite, AllSeen, Trail, BodyDue, SentDue, Allowance.Sound;
    QuietSeen(s, t);
  }

  lemma LastSeen(trail: seq<Record>, frame: nat, inbound: bool)
    requires trail != []
    ensures RawOf(trail[|trail| - 1], frame, inbound) ==> RawSeen(trail, frame, inbound)
    ensures BodyOf(trail[|trail| - 1], frame, inbound) ==> BodySeen(trail, frame, inbound)
  {
  }

  lemma AskSeen(s: State)
    requires s.budget.Sound() && AllSeen(s) && CanObserve(s, Ask) && s.cfg.sink
    ensures AllSeen(DoObserve(s, Ask))
  {
    var t := DoObserve(s, Ask);
    hide Reserve, Allowance.Sound;
    assert Trail(t) == Trail(s);
    hide AllSeen, Trail;
    QuietSeen(s, t);
  }

  lemma GrantedTrail(s: State)
    requires s.budget.Sound() && CanObserve(s, Granted)
    ensures
      var t := DoObserve(s, Granted);
      Trail(t) == Trail(s) + if s.budget.requests[s.work.request].granted then [Record(s.rec.sequence + 1, s.work.input)] else []
  {
    hide Allowance.Sound;
  }

  lemma WaitMatches(s: State)
    requires RecordsFine(s) && s.work.ObserveWait? && s.cfg.sink && !s.stopping
    ensures s.work.input.stage == PacketBody ==> RawSeen(Trail(s), s.work.input.frame, s.work.input.inbound)
    ensures Matching(s.work.input, s.work.next)
  {
    assert WorkMatches(s.work);
    hide Trail, RawSeen, Rising, Counted, RawFirst, Drainer, Matching;
  }

  lemma GrantedSeen(s: State)
    requires s.budget.Sound() && AllSeen(s) && RecordsFine(s) && CanObserve(s, Granted)
    ensures AllSeen(DoObserve(s, Granted))
  {
    GrantedTrail(s);
    if !s.cfg.sink || s.stopping {
      hide RecordsFine, AllSeen, Trail, Allowance.Sound;
      Vacuous(DoObserve(s, Granted));
    } else if s.budget.requests[s.work.request].granted {
      WaitMatches(s);
      hide RecordsFine, Allowance.Sound;
      RecordGranted(s);
    } else {
      hide RecordsFine, AllSeen, Trail, Allowance.Sound;
      QuietSeen(s, DoObserve(s, Granted));
    }
  }

  lemma RecordGranted(s: State)
    requires s.budget.Sound() && AllSeen(s) && CanObserve(s, Granted) && s.budget.requests[s.work.request].granted
    requires Trail(DoObserve(s, Granted)) == Trail(s) + [Record(s.rec.sequence + 1, s.work.input)]
    requires Matching(s.work.input, s.work.next)
    requires s.work.input.stage == PacketBody ==> RawSeen(Trail(s), s.work.input.frame, s.work.input.inbound)
    ensures AllSeen(DoObserve(s, Granted))
  {
    hide AllSeen, Trail, RawSeen, BodySeen, Allowance.Sound;
    var t, input := DoObserve(s, Granted), s.work.input;
    LastSeen(Trail(t), input.frame, input.inbound);
    SeenLonger(Trail(s), Trail(t), input.frame, input.inbound);
    QuietSeen(s, t);
  }

  lemma Vacuous(t: State)
    ensures !t.cfg.sink || t.stopping ==> AllSeen(t)
  {
  }

  lemma PushSeen(s: State)
    requires s.budget.Sound() && AllSeen(s) && RecordsFine(s) && CanObserve(s, Push)
    ensures AllSeen(DoObserve(s, Push))
  {
    var t := DoObserve(s, Push);
    assert WorkMatches(s.work);
    RecordedMatches(s.(rec := s.rec.(channel := s.rec.channel + [s.work.record])), s.work.next, s.work.record.input);
    assert Trail(t) == Trail(s);
    hide AllSeen, Trail, RecordsFine, RawSeen, BodySeen, Allowance.Sound;
    PushDue(s);
    hide DoObserve, CanObserve, BodyDue, SentDue;
    QuietSeen(s, t);
  }

  lemma PushDue(s: State)
    requires s.budget.Sound() && WorkMatches(s.work) && CanObserve(s, Push)
    ensures
      var t := DoObserve(s, Push);
      && t.cfg == s.cfg && t.stopping == s.stopping && t.inb == s.inb && t.out.wire == s.out.wire && t.out.handed == s.out.handed
      && (forall f :: !BodyDue(s.work, f)) && (forall f :: SentDue(s.work, f) ==> SentDue(t.work, f))
  {
    hide Allowance.Sound;
  }

  /** A record refused while the stream runs stops it, if it was due. */
  lemma ResumeSeen(s: State)
    requires s.budget.Sound() && AllSeen(s) && CanObserve(s, Resume)
    ensures AllSeen(DoObserve(s, Resume))
  {
    var t := DoObserve(s, Resume);
    NotSubmittedMatches(s, s.work.next);
    ResumeDue(s);
    assert Trail(t) == Trail(s);
    hide AllSeen, Trail, DoObserve, CanObserve, BodyDue, SentDue, Allowance.Sound;
    QuietSeen(s, t);
  }

  lemma ResumeDue(s: State)
    requires s.budget.Sound() && CanObserve(s, Resume)
    ensures
      var t := DoObserve(s, Resume);
      && t.cfg == s.cfg && (s.stopping ==> t.stopping) && t.inb == s.inb && t.out.wire == s.out.wire && t.rec == s.rec
      && (t.stopping || forall f :: !BodyDue(s.work, f) && !SentDue(s.work, f))
  {
    hide Allowance.Sound;
  }

  lemma ObserveSeen(s: State, step: ObserveStep)
    requires s.budget.Sound() && AllSeen(s) && RecordsFine(s) && CanObserve(s, step)
    ensures AllSeen(DoObserve(s, step))
  {
    ObserveLeaves(s, step);
    KeepsConfig(s, OfObserve(step));
    hide AllSeen, RecordsFine, DoObserve, Allowance.Sound;
    match step {
      case Ask => if s.cfg.sink { AskSeen(s); } else { Vacuous(DoObserve(s, step)); }
      case Granted => GrantedSeen(s);
      case Push => PushSeen(s);
      case Resume => ResumeSeen(s);
      case _ => Vacuous(DoObserve(s, step));
    }
  }

  // ---- what is to be recorded ----------------------------------------------------------------------------------

  /** What a step gives the coordinator to record: its stage and how many bytes. */
  function ToRecord(s: State, step: Step): Option<(Stage, nat)>
    requires Can(s, step)
  {
    match step
    case OfSelect(AcceptFrame(bytes)) => Some((RawFrame, bytes))
    case OfSelect(AcceptControl(bytes)) => Some((Secret, bytes))
    case OfArrival(Decode(Decoded(_, _, bytes))) => Some((PacketBody, bytes))
    case OfWrite(Encode(EncodeFails(bytes))) => Some((Rejected, bytes))
    case OfWrite(Begin(bytes)) => if GetCall(s, s.work.call).state == Queued then None else Some((Rejected, bytes))
    case OfWrite(ReadResult(raw, _)) => if s.out.result.value then Some((RawFrame, raw)) else None
    case OfWrite(GoodbyeResult(raw, _)) => if s.out.result.value then Some((RawFrame, raw)) else None
    case _ => None
  }

  /** The coordinator goes from recording nothing to recording something by exactly these steps, and records that. */
  predicate Recording(s: State, t: State, due: Option<(Stage, nat)>) {
    && NextOf(s.work).None?
    && if due.None? then NextOf(t.work).None?
       else t.work.Observing? && t.work.input.stage == due.value.0 && t.work.input.bytes == due.value.1
  }

  lemma TakesUpExactly(s: State, step: Step)
    requires s.budget.Sound() && Can(s, step) && (step.OfSelect? || step.OfArrival? || step.OfWrite?)
    ensures Recording(s, Do(s, step), ToRecord(s, step))
  {
    hide DoArrival, DoWrite, Allowance.Sound;
    match step {
      case OfArrival(a) => ArrivalTakesUp(s, a); hide Recording;
      case OfWrite(w) => WriteTakesUp(s, w); hide Recording;
      case _ =>
    }
  }

  lemma ArrivalTakesUp(s: State, step: ArrivalStep)
    requires s.budget.Sound() && CanArrival(s, step)
    ensures Recording(s, DoArrival(s, step), ToRecord(s, OfArrival(step)))
  {
    hide Reserve, Release, Cancel, Charge, Allowance.Sound;
  }

  lemma WriteTakesUp(s: State, step: WriteStep)
    requires s.budget.Sound() && CanWrite(s, step)
    ensures Recording(s, DoWrite(s, step), ToRecord(s, OfWrite(step)))
  {
    hide Release, Allowance.Sound;
  }

  /** Once a written frame's raw record is made, its packet's is next, for as many bytes as the packet has; nothing else follows a record at once. */
  lemma BodyFollows(s: State, step: ObserveStep)
    requires s.budget.Sound() && CanObserve(s, step) && (step == Push || (step == Ask && !s.cfg.sink))
    ensures
      var next, work := s.work.next, DoObserve(s, step).work;
      && (next.SentRawNext? ==> work == Observing(Input(next.frame, false, PacketBody, next.body), SentNext(next.call)))
      && (next.GoodbyeRawNext? ==> work == Observing(Input(next.frame, false, PacketBody, next.body), GoodbyeNext))
      && (!next.SentRawNext? && !next.GoodbyeRawNext? ==> NextOf(work).None?)
  {
    hide Reserve, Allowance.Sound, Report;
  }

  // ---- every run ------------------------------------------------------------------------------------------------

  lemma StepSeen(s: State, step: Step)
    requires s.budget.Sound() && AllSeen(s) && RecordsFine(s) && WriteFine(s) && Can(s, step)
    ensures AllSeen(Do(s, step))
  {
    hide AllSeen, RecordsFine, WriteFine, Allowance.Sound, DoCall, DoRead, DoPump, DoSelect, DoObserve, DoArrival, DoWrite, DoDispatch, DoEnd;
    match step {
      case OfCall(c) => CallSeen(s, c);
      case OfRead(r) => ReadSeen(s, r);
      case OfPump(p) => PumpSeen(s, p);
      case OfSelect(c) => SelectSeen(s, c);
      case OfObserve(o) => ObserveSeen(s, o);
      case OfArrival(a) => ArrivalSeen(s, a);
      case OfWrite(w) => WriteSeen(s, w);
      case OfDispatch(d) => DispatchSeen(s, d);
      case OfEnd(e) => EndSeen(s, e);
    }
  }

  lemma {:induction false} RunSeen(s: State, steps: seq<Step>)
    requires Safe(s) && AllSeen(s) && RecordsFine(s) && WriteFine(s) && CanAll(s, steps)
    ensures AllSeen(DoAll(s, steps))
    decreases |steps|
  {
    assert s.budget.Sound();
    hide Safe, AllSeen, RecordsFine, WriteFine, Do, Can, Allowance.Sound;
    if steps != [] {
      StepSafe(s, steps[0]);
      StepRecords(s, steps[0]);
      StepWrites(s, steps[0]);
      StepSeen(s, steps[0]);
      RunSeen(Do(s, steps[0]), steps[1..]);
    }
  }

  lemma InitSeen(cfg: Config)
    ensures AllSeen(Init(cfg))
  {
  }

  /**
   In every run not yet stopped, every packet decoded and every frame written for a call has been
   recorded, raw and as a packet, in what the sink was given or is still to be given; or the
   coordinator is at its records.
   */
  lemma EverythingObserved(cfg: Config, steps: seq<Step>)
    requires CanAll(Init(cfg), steps) && cfg.sink && !DoAll(Init(cfg), steps).stopping
    ensures
      var s := DoAll(Init(cfg), steps);
      && (forall i :: 0 <= i < |s.inb.decoded| ==>
            RawSeen(Trail(s), s.inb.decoded[i].frame, true)
            && (BodySeen(Trail(s), s.inb.decoded[i].frame, true) || BodyDue(s.work, s.inb.decoded[i].frame)))
      && (forall i :: 0 <= i < |s.out.wire| && s.out.wire[i].CallJob? ==>
            BothSeen(Trail(s), s.out.wire[i].frame, false)
            || (i == |s.out.wire| - 1 && SentDue(s.work, s.out.wire[i].frame)))
  {
    InitSafe(cfg);
    InitRecords(cfg);
    InitWrites(cfg);
    InitSeen(cfg);
    hide CanAll, DoAll, Safe, RecordsFine, WriteFine, Trail, BodyDue, SentDue, RawSeen, BodySeen;
    RunSeen(Init(cfg), steps);
    KeepsItsConfig(Init(cfg), steps);
  }
}
