/**
 When a Write can be told that it was sent, and a Read given a packet (stream_runtime.go,
 observation.go). A call's item is held until its records are made, and each record takes
 another, so a stream that records needs room for two; one that does not, for one.
 */
module StreamCompletes {
  import opened Wrappers
  import opened Budget
  import opened Stream
  import opened StreamBalance
  import opened StreamConservation
  import opened StreamSafety
  import opened StreamSafe
  import opened StreamInbound
  import opened StreamMemory
  import opened StreamWrites
  import opened StreamRecords
  import opened StreamTheorems
  import opened StreamAnswers
  import opened StreamWaits

  /** The items a Write and one of its records hold together. */
  function Needed(cfg: Config): nat {
    if cfg.sink then 2 else 1
  }

  predicate SaysSent(c: Call) {
    c.result == Some(Sent) || c.phase == Returned(Sent)
  }

  predicate NoneSent(s: State) {
    !s.stopping ==> forall w :: 0 <= w < |s.out.calls| ==> !SaysSent(s.out.calls[w])
  }

  // ---- without the room -----------------------------------------------------------------------

  /** A record of a call is made only while the call's item and the record's are both held. */
  lemma RecordingNeeds(s: State, step: Step, w: nat)
    requires Safe(s) && Can(s, step) && !s.stopping && Records(s, step) && s.work.next == SentNext(w)
    ensures s.cfg.maxItems >= Needed(s.cfg)
  {
    assert Conserved(s) && Ceiling(s) && Within(s.budget);
    ConservedSums(s);
    var ks, rs := Stakes(s), s.budget.requests;
    assert ks[TURN] == TurnStake(s.work) == Held(1, 0) && ks[WORK] == WorkStake(s.work);
    hide Safe, Conserved, Stakes, SumItems, SumBytes, QueuedItems, QueuedBytes;
    OwnStakes(ks, rs);
  }

  lemma NewCallUnanswered(s: State, step: Step, w: nat)
    requires s.budget.Sound() && Can(s, step) && |s.out.calls| <= w < |Do(s, step).out.calls|
    ensures Do(s, step).out.calls[w].result.None?
  {
    hide Reserve, Release, Cancel, Close, Allowance.Sound, DoObserve, DoArrival, DoWrite;
    match step {
      case OfCall(c) => if !c.Enter? { OneCall(s, c); hide DoCall; }
      case OfObserve(o) => StreamAnswers.ObserveKeepsPhases(s, o);
      case OfArrival(a) => StreamAnswers.ArrivalLeavesCalls(s, a);
      case OfWrite(d) => StreamAnswers.WriteKeepsPhases(s, d);
      case _ =>
    }
  }

  /** No call is answered that it was sent, and none told so but by its answer. */
  lemma CallUnsent(s: State, step: Step, w: nat)
    requires Safe(s) && Can(s, step) && s.cfg.maxItems < Needed(s.cfg) && !s.stopping && w < |Do(s, step).out.calls|
    requires w < |s.out.calls| ==> !SaysSent(s.out.calls[w])
    ensures !SaysSent(Do(s, step).out.calls[w])
  {
    assert s.budget.Sound();
    if w < |s.out.calls| {
      ReportedExactly(s, step, w, Sent);
      if Records(s, step) && s.work.next == SentNext(w) { RecordingNeeds(s, step, w); }
    } else {
      NewCallUnanswered(s, step, w);
    }
    hide Do, Can, Safe, Allowance.Sound;
    if w < |s.out.calls| && s.out.calls[w].phase.Returned? {
      ReturnedStays(s, step, w);
    } else {
      ToldExactly(s, step, w, Sent);
    }
  }

  lemma StepNoneSent(s: State, step: Step)
    requires Safe(s) && Can(s, step) && NoneSent(s) && s.cfg.maxItems < Needed(s.cfg)
    ensures NoneSent(Do(s, step))
  {
    assert s.budget.Sound();
    StepStopping(s, step);
    hide Do, Can, Safe, SaysSent, Allowance.Sound;
    var t := Do(s, step);
    if !t.stopping {
      forall w | 0 <= w < |t.out.calls| ensures !SaysSent(t.out.calls[w]) { CallUnsent(s, step, w); }
    }
  }

  lemma {:induction false} RunNoneSent(s: State, steps: seq<Step>)
    requires Safe(s) && CanAll(s, steps) && NoneSent(s) && s.cfg.maxItems < Needed(s.cfg)
    ensures NoneSent(DoAll(s, steps))
    decreases |steps|
  {
    assert s.budget.Sound();
    hide Do, Can, Safe, NoneSent, Allowance.Sound;
    if steps != [] {
      StepSafe(s, steps[0]);
      StepLine(s, steps[0]);
      StepNoneSent(s, steps[0]);
      RunNoneSent(Do(s, steps[0]), steps[1..]);
    }
  }

  // ---- with the room ----------------------------------------------------------------------------

  /** An open budget with nobody in line and so many items taken. */
  ghost predicate Taken(b: Allowance, cfg: Config, items: nat) {
    && b.Sound() && b.closed.None? && b.queue == [] && b.items == items && b.bytes == 0
    && b.maxItems == cfg.maxItems && b.maxBytes == cfg.maxBytes
  }

  lemma GrantedAtOnce(b: Allowance, cfg: Config, items: nat)
    requires Taken(b, cfg, items) && items < cfg.maxItems
    ensures
      var (c, r) := Reserve(b, 1, 0);
      && r == Ok(|b.requests|) && Taken(c, cfg, items + 1)
      && |b.requests| < |c.requests| && c.requests[|b.requests|].ready && c.requests[|b.requests|].granted
  {
    ReserveAtOnce(b, 1, 0);
  }

  lemma ReleasedToo(b: Allowance, cfg: Config, items: nat)
    requires Taken(b, cfg, items + 1)
    ensures Taken(Release(b, 1, 0), cfg, items)
  {
  }

  /** A stream at the coordinator's next record, with nothing recorded that has not been given. */
  ghost predicate AtRecord(s: State, cfg: Config, items: nat) {
    && s.cfg == cfg && !s.stopping && Taken(s.budget, cfg, items) && (cfg.sink ==> items < cfg.maxItems)
    && s.work.Observing? && s.work.input.bytes == 0
    && s.rec.channel == [] && (cfg.sink ==> s.rec.dispatcher == Idle)
  }

  function AskSteps(): seq<Step> {
    [OfObserve(Ask), OfObserve(Granted), OfObserve(Push), OfDispatch(TakeRecord)]
  }

  function RecordSteps(sink: bool): seq<Step> {
    if sink then AskSteps() + [OfDispatch(Deliver(true))] else [OfObserve(Ask)]
  }

  lemma RecordedApart(s: State, base: State, next: Next, b: Allowance, r: Recording)
    requires base == s.(budget := base.budget, rec := base.rec, work := base.work)
    ensures Recorded(base, next).(budget := b, rec := r) == Recorded(s.(budget := b, rec := r), next)
  {
  }

  lemma RecordAsked(s: State, cfg: Config, items: nat) returns (t: State)
    requires AtRecord(s, cfg, items) && cfg.sink
    ensures Can(s, OfObserve(Ask)) && Do(s, OfObserve(Ask)) == t && Can(t, OfObserve(Granted))
    ensures t == s.(budget := t.budget, work := t.work) && Taken(t.budget, cfg, items + 1)
    ensures
      var u := Do(t, OfObserve(Granted));
      && u == s.(budget := t.budget, work := u.work, rec := s.rec.(sequence := s.rec.sequence + 1))
      && u.work == ObserveSend(Record(s.rec.sequence + 1, s.work.input), s.work.next)
  {
    GrantedAtOnce(s.budget, cfg, items);
    hide Reserve, Recorded, Allowance.Sound;
    t := Do(s, OfObserve(Ask));
  }

  lemma RecordPushed(u: State, s: State, cfg: Config, items: nat) returns (b: Allowance, r: Recording)
    requires u == s.(budget := u.budget, work := u.work, rec := u.rec) && Taken(u.budget, cfg, items + 1) && s.cfg == cfg && cfg.sink
    requires u.work.ObserveSend? && u.rec.channel == [] && u.rec.dispatcher == Idle && cfg.maxItems >= 1 && u.work.record.input.bytes == 0
    ensures Can(u, OfObserve(Push))
    ensures
      var v := Do(u, OfObserve(Push));
      && Can(v, OfDispatch(TakeRecord)) && Can(Do(v, OfDispatch(TakeRecord)), OfDispatch(Deliver(true)))
      && Do(Do(v, OfDispatch(TakeRecord)), OfDispatch(Deliver(true))) == Recorded(s.(budget := b, rec := r), u.work.next)
    ensures Taken(b, cfg, items) && r.channel == [] && r.dispatcher == Idle
  {
    ReleasedToo(u.budget, cfg, items);
    b := Release(u.budget, 1, 0);
    r := u.rec.(delivered := u.rec.delivered + [u.work.record]);
    var base := u.(rec := u.rec.(channel := u.rec.channel + [u.work.record]));
    RecordedApart(s, base, u.work.next, b, r);
    KeepsRec(base, u.work.next);
    hide Recorded, Release, Allowance.Sound;
    assert base.rec.channel[1..] == [];
  }

  lemma KeepsRec(s: State, next: Next)
    ensures Recorded(s, next).rec == s.rec && Recorded(s, next).budget == s.budget
  {
  }

  /** The record is asked for, granted, queued and given to the sink, and the coordinator goes on. */
  lemma RecordMade(s: State, cfg: Config, items: nat) returns (b: Allowance, r: Recording)
    requires AtRecord(s, cfg, items)
    ensures CanAll(s, RecordSteps(cfg.sink)) && DoAll(s, RecordSteps(cfg.sink)) == Recorded(s.(budget := b, rec := r), s.work.next)
    ensures Taken(b, cfg, items) && r.channel == [] && (cfg.sink ==> r.dispatcher == Idle)
  {
    if cfg.sink {
      var t := RecordAsked(s, cfg, items);
      var u := Do(t, OfObserve(Granted));
      b, r := RecordPushed(u, s, cfg, items);
      hide Do, Can, CanAll, DoAll, Recorded, Taken, Allowance.Sound;
      var v := Do(Do(u, OfObserve(Push)), OfDispatch(TakeRecord));
      FourSteps(s, AskSteps());
      One(v, OfDispatch(Deliver(true)));
      Then(s, AskSteps(), [OfDispatch(Deliver(true))]);
    } else {
      b, r := s.budget, s.rec;
      One(s, OfObserve(Ask));
    }
  }

  function EnterSteps(): seq<Step> {
    [OfCall(Enter), OfCall(NoticeGrant(0)), OfSelect(AcceptCall(0)), OfWrite(Encode(Encoded(false)))]
  }

  function PumpSteps(): seq<Step> {
    [OfWrite(Begin(0)), OfWrite(Hand), OfPump(WriteEnds(true)), OfWrite(ReadResult(0, 0))]
  }

  lemma EntersStream(s: State, cfg: Config) returns (t: State)
    requires s == Init(cfg) && cfg.maxItems >= 1
    ensures CanAll(s, EnterSteps()) && DoAll(s, EnterSteps()) == t && Taken(t.budget, cfg, 1)
    ensures
      t == s.(budget := t.budget, frames := 1, work := Beginning(0, 1, false),
              out := s.out.(calls := [Call(Accepted, Queued, None)], accepted := [0]))
  {
    GrantedAtOnce(s.budget, cfg, 0);
    hide Reserve, Allowance.Sound;
    var s1 := Do(s, OfCall(Enter));
    var s2 := Do(s1, OfCall(NoticeGrant(0)));
    var s3 := Do(s2, OfSelect(AcceptCall(0)));
    t := Do(s3, OfWrite(Encode(Encoded(false))));
    hide Do, Can;
    FourSteps(s, EnterSteps());
  }

  lemma WritesFrame(s: State) returns (t: State)
    requires s.budget.Sound() && s.work == Beginning(0, 1, false) && s.out.calls == [Call(Accepted, Queued, None)]
    requires s.out.pump == WriterIdle && s.out.accepted == [0]
    ensures CanAll(s, PumpSteps()) && DoAll(s, PumpSteps()) == t
    ensures t == s.(work := Observing(Input(1, false, RawFrame, 0), SentRawNext(0, 1, 0)), out := t.out)
    ensures t.out.calls == [Call(Accepted, Started, None)]
  {
    hide Allowance.Sound;
    var s1 := Do(s, OfWrite(Begin(0)));
    var s2 := Do(s1, OfWrite(Hand));
    var s3 := Do(s2, OfPump(WriteEnds(true)));
    t := Do(s3, OfWrite(ReadResult(0, 0)));
    hide Do, Can;
    FourSteps(s, PumpSteps());
  }

  lemma IsTold(s: State) returns (t: State)
    requires s.budget.Sound() && |s.out.calls| == 1 && s.out.calls[0].phase == Accepted && s.out.calls[0].result == Some(Sent)
    ensures CanAll(s, [OfCall(TakeResult(0))]) && DoAll(s, [OfCall(TakeResult(0))]) == t
    ensures t.stopping == s.stopping && |t.out.calls| == 1 && t.out.calls[0].phase == Returned(Sent)
  {
    hide Allowance.Sound;
    t := Do(s, OfCall(TakeResult(0)));
    hide Do, Can;
    One(s, OfCall(TakeResult(0)));
  }

  /** The stream's one call has been taken, and this is its answer so far. */
  predicate Answered(s: State, result: Option<Outcome>) {
    |s.out.calls| == 1 && s.out.calls[0].phase == Accepted && s.out.calls[0].result == result
  }

  /** Its two records are made, and it is answered. */
  lemma BothRecords(s: State, cfg: Config) returns (t: State)
    requires AtRecord(s, cfg, 1) && s.work.next.SentRawNext? && s.work.next.call == 0 && s.work.next.body == 0 && Answered(s, None)
    ensures
      var steps := RecordSteps(cfg.sink) + RecordSteps(cfg.sink);
      CanAll(s, steps) && DoAll(s, steps) == t && t.budget.Sound() && !t.stopping && Answered(t, Some(Sent))
  {
    hide CanAll, DoAll, RecordSteps, Allowance.Sound;
    var b, r := RecordMade(s, cfg, 1);
    var u := Recorded(s.(budget := b, rec := r), s.work.next);
    var c, q := RecordMade(u, cfg, 1);
    t := Recorded(u.(budget := c, rec := q), u.work.next);
    hide Taken, Recorded;
    Then(s, RecordSteps(cfg.sink), RecordSteps(cfg.sink));
  }

  function SendingRun(sink: bool): seq<Step> {
    ((EnterSteps() + PumpSteps()) + (RecordSteps(sink) + RecordSteps(sink))) + [OfCall(TakeResult(0))]
  }

  lemma FrameWritten(s: State, cfg: Config) returns (t: State)
    requires s == Init(cfg) && cfg.maxItems >= Needed(cfg)
    ensures CanAll(s, EnterSteps() + PumpSteps()) && DoAll(s, EnterSteps() + PumpSteps()) == t
    ensures AtRecord(t, cfg, 1) && t.work.next == SentRawNext(0, 1, 0) && Answered(t, None)
  {
    hide CanAll, DoAll, EnterSteps, PumpSteps, Allowance.Sound;
    var u := EntersStream(s, cfg);
    t := WritesFrame(u);
    hide Init, Taken;
    Then(s, EnterSteps(), PumpSteps());
  }

  /** One Write goes through a stream with the room, from its call to its answer. */
  lemma WriteGoesThrough(s: State, cfg: Config)
    requires s == Init(cfg) && cfg.maxItems >= Needed(cfg)
    ensures CanAll(s, SendingRun(cfg.sink)) && SentIn(DoAll(s, SendingRun(cfg.sink)), 0)
  {
    hide Init, CanAll, DoAll, EnterSteps, PumpSteps, RecordSteps, AtRecord, Allowance.Sound;
    var u := FrameWritten(s, cfg);
    var v := BothRecords(u, cfg);
    var t := IsTold(v);
    var records := RecordSteps(cfg.sink) + RecordSteps(cfg.sink);
    Then(s, EnterSteps() + PumpSteps(), records);
    Then(s, (EnterSteps() + PumpSteps()) + records, [OfCall(TakeResult(0))]);
  }

  /**
   A Write can be told that it was sent while the stream runs exactly when the stream has room
   for two items, or for one and records nothing.
   */
  lemma SendsExactly(cfg: Config)
    ensures (exists steps, w: nat :: CanAll(Init(cfg), steps) && SentIn(DoAll(Init(cfg), steps), w)) <==>
      cfg.maxItems >= if cfg.sink then 2 else 1
  {
    InitSafe(cfg);
    assert Init(cfg).out.calls == [] && Init(cfg).cfg == cfg;
    if cfg.maxItems >= Needed(cfg) {
      WriteGoesThrough(Init(cfg), cfg);
      hide Init, CanAll, DoAll;
      assert SentIn(DoAll(Init(cfg), SendingRun(cfg.sink)), 0);
    } else {
      hide Init, CanAll, DoAll, Safe;
      forall steps | CanAll(Init(cfg), steps) ensures NoneSent(DoAll(Init(cfg), steps)) {
        RunNoneSent(Init(cfg), steps);
      }
    }
  }

  predicate SentIn(s: State, w: nat) {
    !s.stopping && w < |s.out.calls| && s.out.calls[w].phase == Returned(Sent)
  }

  // ---- a packet's way in ------------------------------------------------------------------------------

  function FetchSteps(): seq<Step> {
    [OfPump(TakeSlot), OfPump(FrameRead), OfSelect(AcceptFrame(0))]
  }

  function QueueSteps(): seq<Step> {
    [OfArrival(ReserveQueue), OfSelect(NoticePending), OfArrival(SendPending), OfRead(Take)]
  }

  lemma FetchesFrame(s: State, cfg: Config) returns (t: State)
    requires s == Init(cfg) && cfg.maxItems >= 1
    ensures CanAll(s, FetchSteps()) && DoAll(s, FetchSteps()) == t
    ensures AtRecord(t, cfg, 0) && t.work.next == DecodeNext(1) && t.inb == s.inb.(slot := false)
  {
    hide CanAll, DoAll;
    var s1 := Do(s, OfPump(TakeSlot));
    var s2 := Do(s1, OfPump(FrameRead));
    t := Do(s2, OfSelect(AcceptFrame(0)));
    hide Do, Can, Allowance.Sound;
    ThreeSteps(s, FetchSteps());
  }

  /** The frame is recorded, decoded, and its packet recorded. */
  lemma DecodesPacket(s: State, cfg: Config, size: nat) returns (t: State)
    requires AtRecord(s, cfg, 0) && s.work.next == DecodeNext(1) && s.inb.pending.None? && s.inb.queue == s.inb.received == []
    ensures
      var steps := RecordSteps(cfg.sink) + ([OfArrival(Decode(Decoded(size, false, 0)))] + RecordSteps(cfg.sink));
      CanAll(s, steps) && DoAll(s, steps) == t
    ensures t.work == Queueing(Arrival(1, size, false)) && Taken(t.budget, cfg, 0) && !t.stopping && t.cfg == cfg
    ensures t.inb.pending.None? && t.inb.queue == t.inb.received == []
  {
    hide CanAll, DoAll, RecordSteps, Allowance.Sound;
    var decode := OfArrival(Decode(Decoded(size, false, 0)));
    var b, r := RecordMade(s, cfg, 0);
    var u := Recorded(s.(budget := b, rec := r), s.work.next);
    var v := Do(u, decode);
    One(u, decode);
    var c, q := RecordMade(v, cfg, 0);
    t := Recorded(v.(budget := c, rec := q), v.work.next);
    hide Taken, Recorded, Do, Can;
    Then(u, [decode], RecordSteps(cfg.sink));
    Then(s, RecordSteps(cfg.sink), [decode] + RecordSteps(cfg.sink));
  }

  lemma GivenAtOnce(b: Allowance, cfg: Config, size: nat)
    requires Taken(b, cfg, 0) && cfg.maxItems >= 1 && size <= cfg.maxBytes
    ensures
      var (c, r) := Reserve(b, 1, size);
      r == Ok(|b.requests|) && c.Sound() && |b.requests| < |c.requests| && c.requests[|b.requests|].ready && c.requests[|b.requests|].granted
  {
    ReserveAtOnce(b, 1, size);
  }

  /** Its place is granted at once, and the coordinator notices. */
  lemma PacketGranted(s: State, cfg: Config, a: Arrival) returns (t: State, u: State)
    requires s.work == Queueing(a) && Taken(s.budget, cfg, 0) && cfg.maxItems >= 1 && a.size <= cfg.maxBytes
    ensures Can(s, OfArrival(ReserveQueue)) && Do(s, OfArrival(ReserveQueue)) == t
    ensures Can(t, OfSelect(NoticePending)) && Do(t, OfSelect(NoticePending)) == u && u.budget.Sound()
    ensures
      u == s.(budget := u.budget, work := SendingPending, inb := s.inb.(pending := Some(Pending(a, |s.budget.requests|))))
  {
    GivenAtOnce(s.budget, cfg, a.size);
    hide Reserve, Taken, Allowance.Sound;
    t := Do(s, OfArrival(ReserveQueue));
    u := Do(t, OfSelect(NoticePending));
  }

  lemma ReachesRead(s: State, cfg: Config, a: Arrival) returns (t: State)
    requires s.work == Queueing(a) && Taken(s.budget, cfg, 0) && !s.stopping && s.cfg == cfg
    requires s.inb.pending.None? && s.inb.queue == s.inb.received == [] && cfg.maxItems >= 1 && a.size <= cfg.maxBytes
    ensures CanAll(s, QueueSteps()) && DoAll(s, QueueSteps()) == t && !t.stopping && t.inb.received == [a]
  {
    var s1, s2 := PacketGranted(s, cfg, a);
    hide Reserve, CanAll, DoAll, Taken, Allowance.Sound;
    var s3 := Do(s2, OfArrival(SendPending));
    t := Do(s3, OfRead(Take));
    hide Do, Can;
    FourSteps(s, QueueSteps());
  }

  function ReceivingRun(sink: bool, size: nat): seq<Step> {
    (FetchSteps() + (RecordSteps(sink) + ([OfArrival(Decode(Decoded(size, false, 0)))] + RecordSteps(sink)))) + QueueSteps()
  }

  /** One packet comes through a stream with the room, from the transport to a Read. */
  lemma PacketComesThrough(s: State, cfg: Config, size: nat)
    requires s == Init(cfg) && cfg.maxItems >= 1 && size <= cfg.maxBytes
    ensures CanAll(s, ReceivingRun(cfg.sink, size)) && ReceivedIn(DoAll(s, ReceivingRun(cfg.sink, size)), 0, size)
  {
    assert s.inb.queue == s.inb.received == [] && s.inb.pending.None?;
    hide Init, CanAll, DoAll, FetchSteps, QueueSteps, RecordSteps, AtRecord, Taken, Allowance.Sound;
    var u := FetchesFrame(s, cfg);
    var v := DecodesPacket(u, cfg, size);
    var t := ReachesRead(v, cfg, Arrival(1, size, false));
    var decoding := RecordSteps(cfg.sink) + ([OfArrival(Decode(Decoded(size, false, 0)))] + RecordSteps(cfg.sink));
    Then(s, FetchSteps(), decoding);
    Then(s, FetchSteps() + decoding, QueueSteps());
  }

  predicate ReceivedIn(s: State, i: nat, size: nat) {
    !s.stopping && i < |s.inb.received| && s.inb.received[i].size == size
  }

  /** Until the stop only granted packets reach the queue, and a packet is granted only what the budget has. */
  predicate FitsAll(s: State) {
    !s.stopping ==> AllFit(QueuedSoFar(s), s.cfg)
  }

  predicate AllFit(items: seq<Arrival>, cfg: Config) {
    forall i :: 0 <= i < |items| ==> cfg.maxItems >= 1 && items[i].size <= cfg.maxBytes
  }

  function QueuedSoFar(s: State): seq<Arrival> {
    s.inb.received + s.inb.queue
  }

  lemma QueueGrows(s: State, step: Step)
    requires Safe(s) && Can(s, step) && !s.stopping
    ensures
      || QueuedSoFar(Do(s, step)) == QueuedSoFar(s)
      || (step == OfArrival(SendPending) && QueuedSoFar(Do(s, step)) == QueuedSoFar(s) + [s.inb.pending.value.arrival])
  {
    assert s.budget.Sound() && Ordered(s);
    hide Safe, Release, Close, Allowance.Sound, Ordered, DoCall, DoRead, DoSelect, DoObserve, DoWrite, DoArrival, CanCall, CanSelect, CanObserve, CanWrite;
    match step {
      case OfCall(c) => CallLine(s, c);
      case OfRead(r) => ReadQueues(s, r); hide QueuedSoFar;
      case OfObserve(o) => ObserveLeaves(s, o);
      case OfArrival(a) => ArrivalQueues(s, a);
      case OfWrite(w) => WriteLeavesInbound(s, w);
      case OfSelect(c) => SelectQueues(s, c); hide QueuedSoFar;
      case _ => OtherQueues(s, step); hide Do, Can;
    }
  }

  lemma OtherQueues(s: State, step: Step)
    requires s.budget.Sound() && Can(s, step) && (step.OfPump? || step.OfDispatch? || step.OfEnd?)
    ensures QueuedSoFar(Do(s, step)) == QueuedSoFar(s)
  {
    hide Release, Close, Allowance.Sound;
  }

  lemma SelectQueues(s: State, step: SelectStep)
    requires CanSelect(s, step)
    ensures QueuedSoFar(DoSelect(s, step)) == QueuedSoFar(s)
  {
  }

  lemma ReadQueues(s: State, step: ReadStep)
    requires s.budget.Sound() && CanRead(s, step)
    ensures QueuedSoFar(DoRead(s, step)) == QueuedSoFar(s)
  {
    hide Release, Allowance.Sound;
  }

  lemma ArrivalQueues(s: State, step: ArrivalStep)
    requires s.budget.Sound() && Ordered(s) && CanArrival(s, step) && !s.stopping
    ensures QueuedSoFar(DoArrival(s, step)) == QueuedSoFar(s) + if step.SendPending? then [s.inb.pending.value.arrival] else []
  {
    hide Reserve, Release, Cancel, Charge, Allowance.Sound;
  }

  lemma StepFitsAll(s: State, step: Step)
    requires Safe(s) && Can(s, step) && FitsAll(s)
    ensures FitsAll(Do(s, step))
  {
    assert s.budget.Sound() && Conserved(s) && Ordered(s) && Ceiling(s);
    StepStopping(s, step);
    StepLine(s, step);
    var t := Do(s, step);
    if !t.stopping {
      QueueGrows(s, step);
      if step == OfArrival(SendPending) { WaitingWithin(s); }
      hide Do, Safe, QueuedSoFar, Conserved, Ordered, Ceiling, Allowance.Sound;
    }
  }

  lemma {:induction false} RunFitsAll(s: State, steps: seq<Step>)
    requires Safe(s) && CanAll(s, steps) && FitsAll(s)
    ensures FitsAll(DoAll(s, steps)) && DoAll(s, steps).cfg == s.cfg
    decreases |steps|
  {
    assert s.budget.Sound();
    hide Do, Can, Safe, FitsAll, Allowance.Sound;
    if steps != [] {
      StepSafe(s, steps[0]);
      StepLine(s, steps[0]);
      StepFitsAll(s, steps[0]);
      RunFitsAll(Do(s, steps[0]), steps[1..]);
    }
  }

  /** A Read can be given a packet of this size while the stream runs exactly when the budget has room for it alone. */
  lemma ReceivesExactly(cfg: Config, size: nat)
    ensures (exists steps, i: nat :: CanAll(Init(cfg), steps) && ReceivedIn(DoAll(Init(cfg), steps), i, size)) <==>
      cfg.maxItems >= 1 && size <= cfg.maxBytes
  {
    InitSafe(cfg);
    assert QueuedSoFar(Init(cfg)) == [] && Init(cfg).cfg == cfg;
    if cfg.maxItems >= 1 && size <= cfg.maxBytes {
      PacketComesThrough(Init(cfg), cfg, size);
    }
    hide Init, CanAll, DoAll, Safe;
    forall steps, i: nat | CanAll(Init(cfg), steps) && ReceivedIn(DoAll(Init(cfg), steps), i, size)
      ensures cfg.maxItems >= 1 && size <= cfg.maxBytes
    {
      RunFitsAll(Init(cfg), steps);
      var s := DoAll(Init(cfg), steps);
      assert QueuedSoFar(s)[i] == s.inb.received[i];
    }
  }
}
