/**
 What stops a stream (stream_runtime.go). The steps that do are listed and no others do;
 whatever ends a goroutine, or answers a call with a failure of the stream's own, has
 stopped it by then.
 */
module StreamStops {
  import opened Wrappers
  import opened Budget
  import opened Stream
  import opened StreamBalance
  import opened StreamConservation
  import opened StreamSafety
  import opened StreamSafe
  import opened StreamInbound
  import opened StreamWrites
  import opened StreamRecords

  // ---- which steps stop it ----------------------------------------------------------------------

  /** A record refused while the stream runs ends it, unless its write was refused or forgotten, or this is the goodbye. */
  predicate NeedsRecord(next: Next) {
    next.DecodeNext? || next.QueueNext? || next.SentRawNext? || next.SentNext? || next.ControlNext?
  }

  /** The owner stops it, everything has been observed, or something that must not fail has failed. */
  predicate Breaks(s: State, step: Step)
    requires Can(s, step)
  {
    match step
    case OfEnd(e) => e == Stop || e == StopAfterDrain
    case OfPump(ReadFails(expected)) => !expected
    case OfArrival(Decode(result)) => result.DecodeFails? || result.TransitionFails?
    case OfArrival(QueueClosed) => true
    case OfSelect(NoticePending) => !s.budget.requests[s.inb.pending.value.request].granted
    case OfObserve(Resume) => NeedsRecord(s.work.next)
    case OfCall(GiveUpAccepted(w)) => s.out.calls[w].state != Queued
    case OfWrite(ReadResult(_, _)) => s.out.result == Some(false)
    case OfDispatch(Deliver(accepted)) => !accepted
    case _ => false
  }

  predicate StopsWhen(s: State, t: State, breaks: bool) {
    t.stopping <==> s.stopping || breaks
  }

  lemma CallStops(s: State, step: CallStep)
    requires s.budget.Sound() && CanCall(s, step)
    ensures StopsWhen(s, DoCall(s, step), Breaks(s, OfCall(step)))
  {
    hide Reserve, Release, Cancel, Allowance.Sound;
  }

  lemma ObserveStops(s: State, step: ObserveStep)
    requires s.budget.Sound() && CanObserve(s, step)
    ensures StopsWhen(s, DoObserve(s, step), Breaks(s, OfObserve(step)))
  {
    hide Reserve, Release, Cancel, Allowance.Sound;
  }

  lemma ArrivalStops(s: State, step: ArrivalStep)
    requires s.budget.Sound() && CanArrival(s, step)
    ensures StopsWhen(s, DoArrival(s, step), Breaks(s, OfArrival(step)))
  {
    hide Reserve, Release, Cancel, Charge, Allowance.Sound;
  }

  lemma WriteStops(s: State, step: WriteStep)
    requires s.budget.Sound() && CanWrite(s, step)
    ensures StopsWhen(s, DoWrite(s, step), Breaks(s, OfWrite(step)))
  {
    hide Release, Allowance.Sound;
  }

  /** A step stops a running stream exactly when it is one of these. */
  lemma StopsExactly(s: State, step: Step)
    requires s.budget.Sound() && Can(s, step)
    ensures Do(s, step).stopping <==> s.stopping || Breaks(s, step)
  {
    hide Release, Close, Allowance.Sound, Reserve, Cancel;
    match step {
      case OfCall(c) => CallStops(s, c); hide DoCall, Breaks;
      case OfObserve(o) => ObserveStops(s, o); hide DoObserve, Breaks;
      case OfArrival(a) => ArrivalStops(s, a); hide DoArrival, Breaks;
      case OfWrite(w) => WriteStops(s, w); hide DoWrite, Breaks;
      case _ =>
    }
  }

  // ---- refused reservations ---------------------------------------------------------------------------

  /** Nobody waiting is refused but by the budget's closing. */
  predicate Unrefused(b: Allowance, k: Stake) {
    k.Claim? && k.request < |b.requests| && b.requests[k.request].ready && !b.requests[k.request].granted ==> b.closed.Some?
  }

  ghost predicate AllUnrefused(b: Allowance, ks: seq<Stake>) {
    forall i :: 0 <= i < |ks| ==> Unrefused(b, ks[i])
  }

  /** The change refuses no request but `spared`, and none of its own. */
  ghost predicate RefusesNone(b: Allowance, c: Allowance, spared: Option<nat>) {
    && |b.requests| <= |c.requests| && (b.closed.Some? ==> c.closed.Some?)
    && (forall i :: 0 <= i < |b.requests| && spared != Some(i) && c.requests[i].ready && !c.requests[i].granted ==>
          b.requests[i].ready && !b.requests[i].granted)
    && (forall i :: |b.requests| <= i < |c.requests| && c.requests[i].ready ==> c.requests[i].granted)
  }

  lemma GrantRefusesNone(b: Allowance)
    requires b.Sound()
    ensures RefusesNone(b, Grant(b), None) && |Grant(b).requests| == |b.requests|
  {
    GrantKeepsClosed(b);
    forall i | 0 <= i < |b.requests| ensures Grant(b).requests[i].ready && !Grant(b).requests[i].granted ==> b.requests[i] == Grant(b).requests[i] {
      GrantTouchesServed(b, i);
    }
    hide Grant, Allowance.Sound;
  }

  lemma ReserveRefusesNone(b: Allowance, n: int, m: int)
    requires b.Sound()
    ensures RefusesNone(b, Reserve(b, n, m).0, None)
  {
    if Reserve(b, n, m).1.Ok? {
      var e := Enqueue(b, n, m);
      GrantRefusesNone(e);
      hide Grant, Allowance.Sound;
    }
  }

  lemma CancelRefusesNone(b: Allowance, i: nat)
    requires b.Sound() && i < |b.requests|
    ensures RefusesNone(b, Cancel(b, i), Some(i))
  {
    if b.requests[i].granted {
      GrantRefusesNone(Return(b, i));
    }
    hide Grant, Allowance.Sound;
  }

  lemma ReleaseRefusesNone(b: Allowance, n: int, m: int)
    requires b.Sound()
    ensures RefusesNone(b, Release(b, n, m), None)
  {
    GrantRefusesNone(Debit(b, n, m));
    hide Grant, Allowance.Sound;
  }

  lemma ChangeRefusesNone(b: Allowance, ks: seq<Stake>, c: Allowance, js: seq<Stake>, items: int, bytes: int, change: Change)
    requires b.Sound() && Accounts(b, ks, c, js, items, bytes, change) && !change.Closes?
    ensures RefusesNone(b, c, if change.Cancels? then Some(ks[change.at].request) else None)
  {
    hide Grant, Reserve, Release, Cancel, Allowance.Sound;
    match change {
      case Enters(n, m) => ReserveRefusesNone(b, n, m);
      case Asks(_, n, m) => ReserveRefusesNone(b, n, m);
      case Cancels(at) => CancelRefusesNone(b, ks[at].request);
      case Refunds(at) => ReleaseRefusesNone(b, ks[at].items, ks[at].bytes);
      case Returns(n, m) => ReleaseRefusesNone(b, n, m);
      case _ =>
    }
  }

  /** Every stake after a change was there before, or claims a request that is new. */
  lemma StakesAfter(b: Allowance, ks: seq<Stake>, c: Allowance, js: seq<Stake>, items: int, bytes: int, change: Change, i: nat)
    requires b.Sound() && Covered(b, ks) && Accounts(b, ks, c, js, items, bytes, change) && i < |js| && js[i].Claim?
    ensures (i < |ks| && js[i] == ks[i] && !(change.Cancels? && js[i].request == ks[change.at].request)) || js[i].request >= |b.requests|
  {
    hide Grant, Release, Cancel, Allowance.Sound;
    if i < |ks| { assert Claimant(b, ks, i); }
  }

  lemma ResultUnrefused(b: Allowance, ks: seq<Stake>, c: Allowance, js: seq<Stake>, items: int, bytes: int, change: Change)
    requires b.Sound() && Covered(b, ks) && Accounts(b, ks, c, js, items, bytes, change) && AllUnrefused(b, ks)
    ensures AllUnrefused(c, js)
  {
    if change.Closes? {
      hide Allowance.Sound, Covered;
    } else {
      ChangeRefusesNone(b, ks, c, js, items, bytes, change);
      forall i | 0 <= i < |js| && js[i].Claim? ensures Unrefused(c, js[i]) {
        StakesAfter(b, ks, c, js, items, bytes, change, i);
        if js[i].request < |b.requests| { assert Unrefused(b, ks[i]) && Claimant(b, ks, i); }
        hide Accounts, Covered, Allowance.Sound;
      }
    }
  }

  lemma StepEffect(s: State, step: Step) returns (change: Change)
    requires Safe(s) && Can(s, step)
    ensures Effect(s, Do(s, step), change)
  {
    assert s.budget.Sound() && Ordered(s);
    hide Safe, Effect, Allowance.Sound, DoCall, DoRead, DoPump, DoSelect, DoObserve, DoArrival, DoWrite, DoDispatch, DoEnd;
    match step {
      case OfCall(c) => CallEffect(s, c); change := CallChange(c);
      case OfRead(r) => ReadEffect(s, r); change := ReadChange(s, r);
      case OfPump(p) => PumpEffect(s, p); change := Stays;
      case OfSelect(c) => SelectEffect(s, c); change := SelectChange(c);
      case OfObserve(o) => ObserveEffect(s, o); change := ObserveChange(s, o);
      case OfArrival(a) => ArrivalEffect(s, a); change := ArrivalChange(s, a);
      case OfWrite(w) => WriteEffect(s, w); change := WriteChange(w);
      case OfDispatch(d) => DispatchEffect(s, d); change := DispatchChange(s, d);
      case OfEnd(e) => EndEffect(s, e); change := EndChange(e);
    }
  }

  lemma EffectUnrefused(s: State, t: State, change: Change)
    requires s.budget.Sound() && Covered(s.budget, Stakes(s)) && Effect(s, t, change) && AllUnrefused(s.budget, Stakes(s))
    ensures AllUnrefused(t.budget, Stakes(t))
  {
    hide Covered, AllUnrefused, Allowance.Sound, Accounts, Stakes;
    ResultUnrefused(s.budget, Stakes(s), t.budget, Stakes(t), QueuedItems(t) - QueuedItems(s), QueuedBytes(t) - QueuedBytes(s), change);
  }

  lemma StepUnrefused(s: State, step: Step)
    requires Safe(s) && Can(s, step) && AllUnrefused(s.budget, Stakes(s))
    ensures AllUnrefused(Do(s, step).budget, Stakes(Do(s, step)))
  {
    assert s.budget.Sound() && Covered(s.budget, Stakes(s));
    hide Safe, Do, Can, Covered, AllUnrefused, Allowance.Sound, Effect, Stakes;
    var change := StepEffect(s, step);
    EffectUnrefused(s, Do(s, step), change);
  }

  // ---- who has stopped, and who was told why ------------------------------------------------------------------

  /** The dispatcher has returned after the coordinator did: everything that will be recorded has been given. */
  predicate Observed(s: State) {
    s.rec.finishing && s.rec.dispatcher == DispatcherHalted
  }

  /** A goroutine that has returned leaves the stream stopping; once it is done, all have. */
  predicate ThreadsFine(s: State) {
    && (s.inb.reader == ReaderHalted ==> s.stopping || Observed(s))
    && (s.out.pump == WriterHalted ==> s.stopping)
    && (s.work == Releasing(true) ==> s.stopping)
    && (s.done ==>
          && s.stopping && s.budget.closed.Some? && Observed(s) && s.work == Halted
          && s.out.pump == WriterHalted && s.inb.reader == ReaderHalted)
  }

  /** The outcomes that blame the stream or the transport. */
  predicate Faulty(o: Outcome) {
    o == TransportFailed || o == NotRecorded || o == AmbiguousWrite || o == StreamEnded
  }

  predicate CallStopped(c: Call, stopping: bool) {
    && (c.phase.Returned? && Faulty(c.phase.outcome) ==> stopping)
    && (c.result.Some? && Faulty(c.result.value) ==> stopping)
  }

  predicate ToldFine(s: State) {
    forall w :: 0 <= w < |s.out.calls| ==> CallStopped(s.out.calls[w], s.stopping)
  }

  ghost predicate StopsFine(s: State) {
    ThreadsFine(s) && ToldFine(s) && AllUnrefused(s.budget, Stakes(s))
  }

  // ---- the goroutines -----------------------------------------------------------------------------------------

  lemma CallThreads(s: State, step: CallStep)
    requires Safe(s) && ThreadsFine(s) && CanCall(s, step)
    ensures ThreadsFine(DoCall(s, step))
  {
    var t := DoCall(s, step);
    CallLeaves(s, step);
    CallEffect(s, step);
    assert t.out.pump == s.out.pump by { if !step.Enter? { OneCall(s, step); } }
    assert s.budget.closed.Some? ==> t.budget.closed.Some? by { ClosedStaysSo(s, t, CallChange(step)); }
    hide DoCall, CanCall, Safe, Effect;
  }

  /** No change opens a closed budget. */
  lemma ClosedStaysSo(s: State, t: State, change: Change)
    requires Safe(s) && Effect(s, t, change)
    ensures s.budget.closed.Some? ==> t.budget.closed.Some?
  {
    assert s.budget.Sound();
    hide Safe, Allowance.Sound, Stakes;
    if !change.Closes? {
      ChangeRefusesNone(s.budget, Stakes(s), t.budget, Stakes(t), QueuedItems(t) - QueuedItems(s), QueuedBytes(t) - QueuedBytes(s), change);
    }
  }

  lemma StepKeepsClosed(s: State, step: Step)
    requires Safe(s) && Can(s, step)
    ensures s.budget.closed.Some? ==> Do(s, step).budget.closed.Some?
  {
    var change := StepEffect(s, step);
    hide Safe, Effect, Do, Can;
    ClosedStaysSo(s, Do(s, step), change);
  }

  lemma ObserveThreads(s: State, step: ObserveStep)
    requires s.budget.Sound() && CanObserve(s, step)
    ensures
      var t := DoObserve(s, step);
      && t.inb == s.inb && t.out.pump == s.out.pump && t.rec.finishing == s.rec.finishing && t.rec.dispatcher == s.rec.dispatcher
      && t.done == s.done && s.work != Halted && (t.work == Releasing(true) ==> t.stopping)
  {
    hide Reserve, Release, Cancel, Allowance.Sound, Recorded, NotSubmitted;
    RecordThreads(s, s.(rec := s.rec.(channel := if s.work.ObserveSend? then s.rec.channel + [s.work.record] else s.rec.channel)),
                  if step.Ask? || step.Push? || step.Resume? then s.work.next else GoodbyeNext);
  }

  lemma RecordThreads(s: State, pushed: State, next: Next)
    ensures
      var t, u := Recorded(pushed, next), NotSubmitted(s, next);
      && t.inb == pushed.inb && t.out.pump == pushed.out.pump && t.rec == pushed.rec && t.done == pushed.done && t.work != Releasing(true)
      && u.inb == s.inb && u.out.pump == s.out.pump && u.rec == s.rec && u.done == s.done && (u.work == Releasing(true) ==> u.stopping)
    ensures
      var t := Recorded(s, next);
      t.inb == s.inb && t.out.pump == s.out.pump && t.rec == s.rec && t.done == s.done && t.work != Releasing(true)
  {
  }

  lemma ArrivalThreads(s: State, step: ArrivalStep)
    requires s.budget.Sound() && CanArrival(s, step)
    ensures
      var t := DoArrival(s, step);
      && t.inb.reader == s.inb.reader && t.out == s.out && t.rec == s.rec && t.done == s.done && s.work != Halted
      && t.work != Releasing(true)
  {
    hide Reserve, Release, Cancel, Charge, Allowance.Sound;
  }

  lemma WriteThreads(s: State, step: WriteStep)
    requires s.budget.Sound() && CanWrite(s, step)
    ensures
      var t := DoWrite(s, step);
      && t.inb == s.inb && (t.out.pump == s.out.pump || t.out.pump.Writing?) && t.rec == s.rec && t.done == s.done && s.work != Halted
      && (t.work == Releasing(true) ==> t.stopping)
  {
    hide Release, Allowance.Sound;
  }

  lemma OtherThreads(s: State, step: Step)
    requires s.budget.Sound() && Ended(s) && ThreadsFine(s) && Can(s, step)
    requires step.OfRead? || step.OfPump? || step.OfSelect? || step.OfDispatch? || step.OfEnd?
    requires s.stopping ==> Do(s, step).stopping
    requires s.budget.closed.Some? ==> Do(s, step).budget.closed.Some?
    ensures ThreadsFine(Do(s, step))
  {
    hide Release, Close, Allowance.Sound;
  }

  lemma StepThreads(s: State, step: Step)
    requires Safe(s) && InboundOrder(s) && ThreadsFine(s) && Can(s, step)
    ensures ThreadsFine(Do(s, step))
  {
    assert s.budget.Sound() && Ended(s);
    StopsExactly(s, step);
    StepKeepsClosed(s, step);
    hide Safe, InboundOrder, Breaks, Allowance.Sound, DoCall, DoRead, DoPump, DoSelect, DoObserve, DoArrival, DoWrite, DoDispatch, DoEnd;
    match step {
      case OfCall(c) => CallThreads(s, c);
      case OfObserve(o) => ObserveThreads(s, o);
      case OfArrival(a) => ArrivalThreads(s, a);
      case OfWrite(w) => WriteThreads(s, w);
      case _ => OtherThreads(s, step);
    }
  }

  // ---- the calls ---------------------------------------------------------------------------------------------

  /** A call's answers are those it had, or blame the stream only if it is stopping. */
  predicate SameTold(s: State, t: State) {
    && |t.out.calls| == |s.out.calls|
    && forall w :: 0 <= w < |s.out.calls| ==>
         || (t.out.calls[w].phase == s.out.calls[w].phase && t.out.calls[w].result == s.out.calls[w].result)
         || (CallStopped(s.out.calls[w], t.stopping) ==> CallStopped(t.out.calls[w], t.stopping))
  }

  lemma SameToldFine(s: State, t: State)
    requires ToldFine(s) && SameTold(s, t) && (s.stopping ==> t.stopping)
    ensures ToldFine(t)
  {
    forall w | 0 <= w < |t.out.calls| ensures CallStopped(t.out.calls[w], t.stopping) {
      assert CallStopped(s.out.calls[w], s.stopping);
    }
  }

  /** A waiter that finds itself refused finds the stream stopping. */
  lemma RefusedIsStopping(s: State, w: nat)
    requires Safe(s) && AllUnrefused(s.budget, Stakes(s)) && CanCall(s, NoticeGrant(w))
    ensures !s.budget.requests[s.out.calls[w].phase.request].granted ==> s.stopping
  {
    assert Stakes(s)[CALLS + w] == CallStake(s.out.calls[w]);
    assert Unrefused(s.budget, Stakes(s)[CALLS + w]) && Ordered(s);
  }

  lemma CallTold(s: State, step: CallStep)
    requires Safe(s) && StopsFine(s) && CanCall(s, step)
    ensures ToldFine(DoCall(s, step))
  {
    assert s.budget.Sound() && ToldFine(s) && AllUnrefused(s.budget, Stakes(s));
    hide Safe, StopsFine, ThreadsFine, AllUnrefused, Stakes, Allowance.Sound, DoCall, CallStopped;
    CallLeaves(s, step);
    if step.NoticeGrant? { RefusedIsStopping(s, step.call); }
    if step.Enter? {
      EnterTold(s);
    } else {
      OneCall(s, step);
      var t := DoCall(s, step);
      assert CallStopped(s.out.calls[step.call], s.stopping);
      OneCallTold(s, step);
      hide CanCall, ToldFine;
      assert SameTold(s, t);
      SameToldFine(s, t);
    }
  }

  lemma OneCallTold(s: State, step: CallStep)
    requires s.budget.Sound() && CanCall(s, step) && !step.Enter? && step.call < |s.out.calls|
    requires CallStopped(s.out.calls[step.call], s.stopping)
    requires step.NoticeGrant? ==> s.budget.requests[s.out.calls[step.call].phase.request].granted || s.stopping
    ensures |DoCall(s, step).out.calls| == |s.out.calls|
    ensures CallStopped(DoCall(s, step).out.calls[step.call], DoCall(s, step).stopping)
  {
    hide Allowance.Sound, Reserve, Release, Cancel;
  }

  lemma EnterTold(s: State)
    requires s.budget.Sound() && ToldFine(s)
    ensures ToldFine(DoCall(s, Enter))
  {
    hide Reserve, Allowance.Sound;
    var t := DoCall(s, Enter);
    forall w | 0 <= w < |t.out.calls| ensures CallStopped(t.out.calls[w], t.stopping) {
      assert w < |s.out.calls| ==> t.out.calls[w] == s.out.calls[w] && CallStopped(s.out.calls[w], s.stopping);
    }
  }

  lemma ObserveTold(s: State, step: ObserveStep)
    requires s.budget.Sound() && CanObserve(s, step)
    ensures SameTold(s, DoObserve(s, step))
  {
    hide Reserve, Release, Cancel, Allowance.Sound;
  }

  lemma WriteTold(s: State, step: WriteStep)
    requires s.budget.Sound() && CanWrite(s, step)
    ensures SameTold(s, DoWrite(s, step))
  {
    hide Release, Allowance.Sound;
  }

  lemma StepTold(s: State, step: Step)
    requires Safe(s) && StopsFine(s) && Can(s, step)
    ensures ToldFine(Do(s, step))
  {
    assert s.budget.Sound() && ToldFine(s);
    StopsExactly(s, step);
    hide Safe, StopsFine, Breaks, Allowance.Sound, CallStopped, DoCall, DoObserve, DoArrival, DoWrite, Release, Close;
    match step {
      case OfCall(c) => CallTold(s, c);
      case OfObserve(o) => ObserveTold(s, o); hide ToldFine, SameTold; SameToldFine(s, DoObserve(s, o));
      case OfArrival(a) => ArrivalThreads(s, a);
      case OfWrite(w) => WriteTold(s, w); hide ToldFine, SameTold; SameToldFine(s, DoWrite(s, w));
      case OfSelect(c) => hide DoSelect, CanSelect; SelectTold(s, c); SameToldFine(s, DoSelect(s, c));
      case _ =>
    }
  }

  lemma SelectTold(s: State, step: SelectStep)
    requires CanSelect(s, step)
    ensures SameTold(s, DoSelect(s, step))
  {
  }

  // ---- every run -----------------------------------------------------------------------------------------------

  lemma StepStops(s: State, step: Step)
    requires Safe(s) && InboundOrder(s) && StopsFine(s) && Can(s, step)
    ensures StopsFine(Do(s, step))
  {
    StepTold(s, step);
    StepThreads(s, step);
    StepUnrefused(s, step);
    hide Safe, InboundOrder, Do, Can, ThreadsFine, ToldFine, AllUnrefused;
  }

  lemma InitStops(cfg: Config)
    ensures StopsFine(Init(cfg))
  {
    var s := Init(cfg);
    forall i | 0 <= i < |Stakes(s)| ensures Unrefused(s.budget, Stakes(s)[i]) {
      assert Stakes(s)[i] == NoStake;
    }
  }

  lemma {:induction false} RunStops(s: State, steps: seq<Step>)
    requires Safe(s) && InboundOrder(s) && StopsFine(s) && CanAll(s, steps)
    ensures StopsFine(DoAll(s, steps))
    decreases |steps|
  {
    assert s.budget.Sound();
    hide Safe, InboundOrder, StopsFine, Do, Can, Allowance.Sound;
    if steps != [] {
      StepSafe(s, steps[0]);
      StepOrder(s, steps[0]);
      StepStops(s, steps[0]);
      RunStops(Do(s, steps[0]), steps[1..]);
    }
  }

  /** A coordinator leaves a stream that is not stopping only over its goodbye. */
  predicate SayingGoodbye(work: Work) {
    || work.Disconnecting? || work.GoodbyeHanding? || work.GoodbyeAwaiting?
    || (NextOf(work).Some? && (NextOf(work).value.GoodbyeRawNext? || NextOf(work).value.GoodbyeNext?))
  }

  lemma LeavesStopping(s: State, step: Step)
    requires Safe(s) && StopsFine(s) && Can(s, step) && s.work != Halted && Do(s, step).work == Halted
    ensures Do(s, step).stopping || SayingGoodbye(s.work)
  {
    assert s.budget.Sound() && ThreadsFine(s) && Ordered(s);
    hide Safe, StopsFine, Allowance.Sound;
    match step {
      case OfCall(c) => CallLeaves(s, c); hide DoCall;
      case OfObserve(o) => ObserveLeavesStopping(s, o); hide DoObserve;
      case OfArrival(a) => ArrivalLeavesStopping(s, a); hide DoArrival;
      case OfWrite(w) => WriteLeavesStopping(s, w); hide DoWrite;
      case _ => hide Release, Close;
    }
  }

  lemma ObserveLeavesStopping(s: State, step: ObserveStep)
    requires s.budget.Sound() && CanObserve(s, step) && DoObserve(s, step).work == Halted
    ensures DoObserve(s, step).stopping || SayingGoodbye(s.work)
  {
    hide Reserve, Release, Cancel, Allowance.Sound;
  }

  lemma ArrivalLeavesStopping(s: State, step: ArrivalStep)
    requires s.budget.Sound() && Ordered(s) && CanArrival(s, step) && DoArrival(s, step).work == Halted
    ensures DoArrival(s, step).stopping
  {
    hide Reserve, Release, Cancel, Charge, Allowance.Sound;
  }

  lemma WriteLeavesStopping(s: State, step: WriteStep)
    requires s.budget.Sound() && ThreadsFine(s) && CanWrite(s, step) && DoWrite(s, step).work == Halted
    ensures DoWrite(s, step).stopping || SayingGoodbye(s.work)
  {
    hide Release, Allowance.Sound;
  }

  // ---- when the coordinator leaves ------------------------------------------------------------------------------

  /** It takes no more work: what it still does is hand over the packet or return the charge it holds. */
  predicate LastRound(work: Work) {
    match work
    case Halted => true
    case HandOff => true
    case HandOffCancel => true
    case HandOffSend => true
    case Charging(_, last) => last
    case HandingOver(_, last) => last
    case Releasing(last) => last
    case _ => false
  }

  /** It is told to stop, something breaks while it runs, or its goodbye is over. */
  predicate Leaves(s: State, step: Step)
    requires Can(s, step)
  {
    match step
    case OfSelect(NoticeStop) => true
    case OfSelect(SnapshotStops) => true
    case OfSelect(NoticePending) => !s.budget.requests[s.inb.pending.value.request].granted
    case OfArrival(Decode(result)) => !result.Decoded?
    case OfArrival(QueueClosed) => !s.stopping
    case OfArrival(SendStopped) => true
    case OfObserve(Ask) => !s.cfg.sink && s.work.next.GoodbyeNext?
    case OfObserve(Push) => s.work.next.GoodbyeNext?
    case OfObserve(Resume) =>
      || s.work.next.GoodbyeRawNext? || s.work.next.GoodbyeNext?
      || (!s.stopping && NeedsRecord(s.work.next) && !s.work.next.ControlNext?)
    case OfWrite(HandStopped) => true
    case OfWrite(ReadResult(_, _)) => s.out.result == Some(false)
    case OfWrite(BuildGoodbye(supported, built)) => !(supported && built)
    case OfWrite(GoodbyeResult(_, _)) => s.out.result == Some(false)
    case OfWrite(GoodbyeGivenUp(_)) => true
    case _ => false
  }

  predicate LeavesWhen(s: State, t: State, leaves: bool) {
    LastRound(t.work) <==> LastRound(s.work) || leaves
  }

  lemma ObserveLeavesWhen(s: State, step: ObserveStep)
    requires s.budget.Sound() && CanObserve(s, step)
    ensures LeavesWhen(s, DoObserve(s, step), Leaves(s, OfObserve(step)))
  {
    hide Reserve, Release, Cancel, Allowance.Sound;
  }

  lemma ArrivalLeavesWhen(s: State, step: ArrivalStep)
    requires s.budget.Sound() && CanArrival(s, step)
    ensures LeavesWhen(s, DoArrival(s, step), Leaves(s, OfArrival(step)))
  {
    hide Reserve, Release, Cancel, Charge, Allowance.Sound;
  }

  lemma WriteLeavesWhen(s: State, step: WriteStep)
    requires s.budget.Sound() && CanWrite(s, step)
    ensures LeavesWhen(s, DoWrite(s, step), Leaves(s, OfWrite(step)))
  {
    hide Release, Allowance.Sound;
  }

  /** The coordinator begins its last round by these steps and no others, and never goes back. */
  lemma LeavesExactly(s: State, step: Step)
    requires s.budget.Sound() && Can(s, step)
    ensures LastRound(Do(s, step).work) <==> LastRound(s.work) || Leaves(s, step)
  {
    hide Release, Close, Allowance.Sound, DoCall, DoObserve, DoArrival, DoWrite;
    match step {
      case OfCall(c) => CallLeaves(s, c);
      case OfObserve(o) => ObserveLeavesWhen(s, o); hide Leaves, LastRound;
      case OfArrival(a) => ArrivalLeavesWhen(s, a); hide Leaves, LastRound;
      case OfWrite(w) => WriteLeavesWhen(s, w); hide Leaves, LastRound;
      case _ =>
    }
  }

  // ---- the processing token -----------------------------------------------------------------------------------------

  /** A read pump gives it back when it fails or stops with a frame; the coordinator does once it has tried to decode. */
  predicate GivesBack(s: State, step: Step)
    requires Can(s, step)
  {
    match step
    case OfPump(ReadFails(_)) => true
    case OfPump(ReaderStops) => s.inb.reader == HoldingFrame
    case OfArrival(Decode(_)) => true
    case _ => false
  }

  /** The token is taken by the read pump alone, and given back by exactly these steps, a failed decode among them. */
  lemma TokenExactly(s: State, step: Step)
    requires s.budget.Sound() && Can(s, step)
    ensures Do(s, step).inb.slot <==> (s.inb.slot && step != OfPump(TakeSlot)) || GivesBack(s, step)
  {
    hide Release, Close, Allowance.Sound, DoCall, DoObserve, DoArrival, DoWrite;
    match step {
      case OfCall(c) => CallLeaves(s, c);
      case OfObserve(o) => ObserveToken(s, o);
      case OfArrival(a) => ArrivalToken(s, a);
      case OfWrite(w) => WriteToken(s, w);
      case _ =>
    }
  }

  lemma ObserveToken(s: State, step: ObserveStep)
    requires s.budget.Sound() && CanObserve(s, step)
    ensures DoObserve(s, step).inb == s.inb
  {
    hide Reserve, Release, Cancel, Allowance.Sound;
  }

  lemma WriteToken(s: State, step: WriteStep)
    requires s.budget.Sound() && CanWrite(s, step)
    ensures DoWrite(s, step).inb == s.inb
  {
    hide Release, Allowance.Sound;
  }

  lemma ArrivalToken(s: State, step: ArrivalStep)
    requires s.budget.Sound() && CanArrival(s, step)
    ensures DoArrival(s, step).inb.slot <==> s.inb.slot || step.Decode?
  {
    hide Reserve, Release, Cancel, Charge, Allowance.Sound;
  }
}
