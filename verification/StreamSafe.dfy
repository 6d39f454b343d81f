/** Every step keeps `Safe`, so every run from the initial state does. */
module StreamSafe {
  import opened Wrappers
  import opened Budget
  import opened Stream
  import opened StreamBalance
  import opened StreamConservation
  import opened StreamSafety

  function PendingRequest(s: State): Option<nat> {
    if s.inb.pending.Some? then Some(s.inb.pending.value.request) else None
  }

  lemma ClaimsDiffer(s: State, at: nat)
    requires Conserved(s) && at < |Stakes(s)| && at != PENDING && Stakes(s)[at].Claim? && s.inb.pending.Some?
    ensures Stakes(s)[at].request != s.inb.pending.value.request
  {
    assert Stakes(s)[PENDING].Claim?;
  }

  /** The coordinator's stakes know their requests. */
  lemma StakeKnown(s: State, at: nat)
    requires Conserved(s) && at < |Stakes(s)| && Stakes(s)[at].Claim?
    ensures Stakes(s)[at].request < |s.budget.requests|
  {
    assert Claimant(s.budget, Stakes(s), at);
  }

  /** The step leaves the pending packet with the coordinator, and the Read queue no longer. */
  predicate KeepsPending(s: State, t: State) {
    t.cfg == s.cfg && t.inb.pending == s.inb.pending && |t.inb.queue| <= |s.inb.queue| && (s.stopping ==> t.stopping)
  }

  /** A balanced change keeps everything about a pending packet it leaves with the coordinator. */
  lemma Carry(s: State, t: State, change: Change)
    requires Safe(s) && Effect(s, t, change) && !change.Charges? && change != Cancels(PENDING)
    requires KeepsPending(s, t)
    ensures Conserved(t) && Room(t) && Ceiling(t)
    ensures PendingGranted(s) ==> PendingGranted(t)
    ensures !change.Closes? ==> t.budget.closed == s.budget.closed
  {
    EffectConserved(s, t, change);
    if change.Cancels? && s.inb.pending.Some? { ClaimsDiffer(s, change.at); }
    ResultSection(s.budget, Stakes(s), t.budget, Stakes(t),
                  QueuedItems(t) - QueuedItems(s), QueuedBytes(t) - QueuedBytes(s), change, PendingRequest(s));
    if t.inb.pending.Some? {
      StakeKnown(s, PENDING);
      StakeKnown(t, PENDING);
    }
    hide Effect, Accounts;
    SectionCarries(s, t);
  }

  lemma SectionCarries(s: State, t: State)
    requires Safe(s) && KeepsPending(s, t) && Conserved(t) && Section(s.budget, t.budget, PendingRequest(s))
    requires s.inb.pending.Some? ==> s.inb.pending.value.request < |s.budget.requests|
    requires t.inb.pending.Some? ==> t.inb.pending.value.request < |t.budget.requests|
    ensures Room(t) && Ceiling(t)
    ensures PendingGranted(s) ==> PendingGranted(t)
  {
    if t.inb.pending.Some? { HeldIsCharged(t, PENDING); }
    assert Room(s) && Ceiling(s);
    hide Safe, Conserved;
  }

  // ---- steps that leave the coordinator where it is ---------------------------------------------------

  /** Another goroutine's step: the coordinator, its pending packet and the processing token stay put. */
  lemma ElsewhereSafe(s: State, t: State, change: Change)
    requires Safe(s) && Effect(s, t, change) && !change.Charges? && !change.Closes? && change != Cancels(PENDING)
    requires KeepsPending(s, t) && t.work == s.work
    requires t.inb.slot == s.inb.slot && SlotWithReader(t) == SlotWithReader(s)
    ensures Safe(t)
  {
    Carry(s, t, change);
    hide Conserved, Effect, Ceiling, Room;
  }

  lemma CallSafe(s: State, step: CallStep)
    requires Safe(s) && CanCall(s, step)
    ensures Safe(DoCall(s, step))
  {
    CallEffect(s, step);
    if !step.Enter? { OneCall(s, step); }
    EnterLeaves(s);
    hide DoCall, Effect, Conserved, Ceiling, Room, OneSlot, Ordered;
    ElsewhereSafe(s, DoCall(s, step), CallChange(step));
  }

  lemma EnterLeaves(s: State)
    requires s.budget.Sound()
    ensures
      var t := DoCall(s, Enter);
      t.cfg == s.cfg && t.inb == s.inb && t.work == s.work && t.stopping == s.stopping && t.rec == s.rec
  {
  }

  lemma ReadSafe(s: State, step: ReadStep)
    requires Safe(s) && CanRead(s, step)
    ensures Safe(DoRead(s, step))
  {
    ReadEffect(s, step);
    hide Effect, Conserved, Ceiling, Room, Ordered, Release, Grant;
    ElsewhereSafe(s, DoRead(s, step), ReadChange(s, step));
  }

  lemma PumpSafe(s: State, step: PumpStep)
    requires Safe(s) && CanPump(s, step)
    ensures Safe(DoPump(s, step))
  {
    PumpEffect(s, step);
    hide Effect, Conserved;
    Carry(s, DoPump(s, step), Stays);
  }

  lemma DispatchLeaves(s: State, step: DispatchStep)
    requires s.budget.Sound() && CanDispatch(s, step)
    ensures
      var t := DoDispatch(s, step);
      t.cfg == s.cfg && t.inb == s.inb && t.work == s.work && (s.stopping ==> t.stopping)
      && !DispatchChange(s, step).Charges? && !DispatchChange(s, step).Closes? && !DispatchChange(s, step).Cancels?
  {
    hide Release, Grant;
  }

  lemma DispatchSafe(s: State, step: DispatchStep)
    requires Safe(s) && CanDispatch(s, step)
    ensures Safe(DoDispatch(s, step))
  {
    DispatchEffect(s, step);
    DispatchLeaves(s, step);
    hide Effect, Conserved, Ceiling, Room, Ordered, OneSlot, DoDispatch, DispatchChange;
    ElsewhereSafe(s, DoDispatch(s, step), DispatchChange(s, step));
  }

  lemma EndSafe(s: State, step: EndStep)
    requires Safe(s) && CanEnd(s, step)
    ensures Safe(DoEnd(s, step))
  {
    EndEffect(s, step);
    hide Effect, Conserved, Close;
    Carry(s, DoEnd(s, step), EndChange(step));
  }

  // ---- steps of the coordinator --------------------------------------------------------------------------

  lemma AcceptCallLeaves(s: State, w: nat)
    requires CanSelect(s, AcceptCall(w))
    ensures
      var t := DoSelect(s, AcceptCall(w));
      t.budget == s.budget && t.inb == s.inb && t.stopping == s.stopping && t.cfg == s.cfg && t.work == Encoding(w)
  {
  }

  lemma SelectControl(s: State, step: SelectStep)
    requires CanSelect(s, step) && Ordered(s) && OneSlot(s)
    ensures
      var t := DoSelect(s, step);
      Ordered(t) && OneSlot(t) && KeepsPending(s, t)
  {
    if step.AcceptCall? {
      AcceptCallLeaves(s, step.call);
      hide DoSelect;
    } else {
      hide SetCall;
    }
  }

  lemma SelectSafe(s: State, step: SelectStep)
    requires Safe(s) && CanSelect(s, step)
    ensures Safe(DoSelect(s, step))
  {
    SelectEffect(s, step);
    SelectControl(s, step);
    hide Effect, Conserved, DoSelect, Ordered, OneSlot;
    Carry(s, DoSelect(s, step), SelectChange(step));
  }

  function NextOf(work: Work): Option<Next> {
    match work
    case Observing(_, next) => Some(next)
    case ObserveWait(_, _, next) => Some(next)
    case ObserveSend(_, next) => Some(next)
    case ObserveFailed(next) => Some(next)
    case _ => None
  }

  /** Where the coordinator may go once a record has been made or refused. */
  predicate GoesOn(work: Work, next: Next) {
    match next
    case DecodeNext(f) => work == Decoding(f) || work == Halted
    case QueueNext(a) => work == Queueing(a) || work == Halted
    case RefuseNext(_) => work.Releasing?
    case ForgetNext(_) => work.Releasing?
    case SentRawNext(w, _, _) => (work.Observing? && work.next == SentNext(w)) || work.Releasing?
    case SentNext(_) => work.Releasing?
    case GoodbyeRawNext(_, _) => (work.Observing? && work.next == GoodbyeNext) || work == Halted
    case GoodbyeNext => work == Halted
    case ControlNext => work == Select
  }

  predicate KeepsAllButCalls(s: State, t: State) {
    && t.cfg == s.cfg && t.budget == s.budget && t.inb == s.inb && t.rec == s.rec && t.done == s.done
    && t.frames == s.frames && t.applied == s.applied && (s.stopping ==> t.stopping)
  }

  lemma RecordedGoesOn(s: State, next: Next)
    ensures GoesOn(Recorded(s, next).work, next) && KeepsAllButCalls(s, Recorded(s, next))
  {
  }

  lemma NotSubmittedGoesOn(s: State, next: Next)
    ensures GoesOn(NotSubmitted(s, next).work, next) && KeepsAllButCalls(s, NotSubmitted(s, next))
  {
  }

  lemma ObserveGoesOn(s: State, step: ObserveStep)
    requires s.budget.Sound() && CanObserve(s, step)
    ensures
      var t := DoObserve(s, step);
      && NextOf(s.work).Some?
      && (NextOf(t.work) == NextOf(s.work) || GoesOn(t.work, NextOf(s.work).value))
      && t.cfg == s.cfg && t.inb == s.inb && (s.stopping ==> t.stopping)
  {
    hide Grant, Release, Reserve, Cancel, Allowance.Sound;
    RecordedGoesOn(s, s.work.next);
    NotSubmittedGoesOn(s, s.work.next);
    if step.Push? {
      RecordedGoesOn(s.(rec := s.rec.(channel := s.rec.channel + [s.work.record])), s.work.next);
    }
    hide Recorded, NotSubmitted;
  }

  /** Going on keeps the coordinator out of the hand-off states, and gives up the token only by dying. */
  lemma GoesOnKeeps(s: State, t: State)
    requires NextOf(s.work).Some?
    requires NextOf(t.work) == NextOf(s.work) || GoesOn(t.work, NextOf(s.work).value)
    ensures Arriving(t.work) ==> Arriving(s.work)
    ensures SlotWithCoordinator(t.work) == SlotWithCoordinator(s.work) || (t.work == Halted && SlotWithCoordinator(s.work))
    ensures !t.work.SendingPending? && !HandingOff(t.work) && !t.work.Charging? && !t.work.HandingOver?
    ensures s.work != Halted
  {
  }

  lemma ObserveControl(s: State, t: State)
    requires Ordered(s) && OneSlot(s) && t.inb == s.inb && t.budget.closed == s.budget.closed && (s.stopping ==> t.stopping)
    requires Arriving(t.work) ==> Arriving(s.work)
    requires SlotWithCoordinator(t.work) == SlotWithCoordinator(s.work) || (t.work == Halted && SlotWithCoordinator(s.work))
    requires !t.work.SendingPending? && !HandingOff(t.work) && !t.work.Charging? && !t.work.HandingOver?
    requires s.work != Halted
    ensures Ordered(t) && OneSlot(t)
  {
    hide Arriving, SlotWithCoordinator;
  }

  lemma ObserveNeverCharges(s: State, step: ObserveStep)
    requires CanObserve(s, step)
    ensures
      var c := ObserveChange(s, step);
      !c.Charges? && !c.Closes? && c != Cancels(PENDING)
  {
  }

  lemma ObserveSafe(s: State, step: ObserveStep)
    requires Safe(s) && CanObserve(s, step)
    ensures Safe(DoObserve(s, step))
  {
    ObserveEffect(s, step);
    ObserveGoesOn(s, step);
    ObserveNeverCharges(s, step);
    var t := DoObserve(s, step);
    GoesOnKeeps(s, t);
    hide Effect, Conserved, DoObserve, GoesOn, NextOf, Arriving, SlotWithCoordinator, ObserveChange, Ordered, OneSlot, Room, Ceiling;
    Carry(s, t, ObserveChange(s, step));
    ObserveControl(s, t);
  }

  lemma ReservedIsNew(b: Allowance, size: nat)
    requires b.Sound() && Reserve(b, 1, size).1.Ok?
    ensures Reserve(b, 1, size).1.value == |b.requests|
  {
  }

  lemma QueueingControl(s: State, step: ArrivalStep)
    requires s.budget.Sound() && CanArrival(s, step) && Ordered(s) && OneSlot(s)
    requires step.Decode? || step.ReserveQueue? || step.QueueClosed? || step.ChargeArrival? || step.HandOver?
    requires DoArrival(s, step).budget.closed == s.budget.closed
    ensures Ordered(DoArrival(s, step)) && OneSlot(DoArrival(s, step))
  {
    hide Grant, Release, Reserve, Cancel, Charge, Allowance.Sound;
  }

  lemma ArrivalControl(s: State, step: ArrivalStep)
    requires s.budget.Sound() && CanArrival(s, step) && Ordered(s) && OneSlot(s)
    requires DoArrival(s, step).budget.closed == s.budget.closed
    ensures Ordered(DoArrival(s, step)) && OneSlot(DoArrival(s, step))
  {
    hide Grant, Release, Reserve, Cancel, Charge, Allowance.Sound;
    match step {
      case SendPending =>
      case SendStopped =>
      case CheckHandOff =>
      case CancelHandOff =>
      case SendHandOff =>
      case _ => QueueingControl(s, step); hide DoArrival, Ordered, OneSlot;
    }
  }

  /** Handling an arrival stays within the ceiling, unless it charges, which it does only after the stop. */
  lemma ArrivalCeiling(s: State, step: ArrivalStep)
    requires Conserved(s) && Ordered(s) && Ceiling(s) && CanArrival(s, step)
    ensures Conserved(DoArrival(s, step)) && Ceiling(DoArrival(s, step))
    ensures DoArrival(s, step).budget.closed == s.budget.closed
    ensures !step.ChargeArrival? ==> Section(s.budget, DoArrival(s, step).budget, None)
  {
    hide DoArrival, Stakes, Section;
    ArrivalEffect(s, step);
    var t := DoArrival(s, step);
    EffectConserved(s, t, ArrivalChange(s, step));
    ArrivalKeepsConfig(s, step);
    if !step.ChargeArrival? {
      ResultSection(s.budget, Stakes(s), t.budget, Stakes(t),
                    QueuedItems(t) - QueuedItems(s), QueuedBytes(t) - QueuedBytes(s), ArrivalChange(s, step), None);
      ArrivalNeverCloses(s, step);
      hide Balanced;
    }
  }

  lemma ArrivalNeverCloses(s: State, step: ArrivalStep)
    requires CanArrival(s, step)
    ensures !ArrivalChange(s, step).Closes?
  {
  }

  lemma ArrivalKeepsConfig(s: State, step: ArrivalStep)
    requires s.budget.Sound() && CanArrival(s, step)
    ensures DoArrival(s, step).cfg == s.cfg && (s.stopping ==> DoArrival(s, step).stopping)
  {
    hide Grant, Release, Reserve, Cancel, Allowance.Sound;
  }

  lemma ArrivalRoom(s: State, step: ArrivalStep)
    requires Conserved(s) && Room(s) && Ordered(s) && CanArrival(s, step) && !step.ReserveQueue?
    ensures Room(DoArrival(s, step))
  {
    hide Grant, Release, Reserve, Cancel, Balanced;
  }

  lemma ReserveQueueRoom(s: State)
    requires Conserved(s) && Ceiling(s) && Ordered(s) && CanArrival(s, ReserveQueue)
    ensures Room(DoArrival(s, ReserveQueue))
  {
    ArrivalCeiling(s, ReserveQueue);
    var t := DoArrival(s, ReserveQueue);
    if t.inb.pending.Some? {
      StakeKnown(t, PENDING);
      HeldIsCharged(t, PENDING);
      ReservedIsNew(s.budget, s.work.arrival.size);
    }
    hide Conserved, Reserve;
  }

  lemma ArrivalSafe(s: State, step: ArrivalStep)
    requires Safe(s) && CanArrival(s, step)
    ensures Safe(DoArrival(s, step))
  {
    ArrivalCeiling(s, step);
    ArrivalControl(s, step);
    if step.ReserveQueue? { ReserveQueueRoom(s); } else { ArrivalRoom(s, step); }
    hide DoArrival, Conserved, Ordered, Ceiling, Room, OneSlot;
  }

  lemma WriteWork(s: State, step: WriteStep)
    requires s.budget.Sound() && CanWrite(s, step)
    ensures
      var t := DoWrite(s, step);
      && !Arriving(t.work) && !SlotWithCoordinator(t.work) && !t.work.SendingPending? && !HandingOff(t.work)
      && !SlotWithCoordinator(s.work) && s.work != Halted
  {
    hide Grant, Release, Allowance.Sound, Report;
  }

  lemma WriteControl(s: State, t: State)
    requires Ordered(s) && OneSlot(s) && t.inb == s.inb && t.budget.closed == s.budget.closed && (s.stopping ==> t.stopping)
    requires !Arriving(t.work) && !SlotWithCoordinator(t.work) && !t.work.SendingPending? && !HandingOff(t.work)
    requires !SlotWithCoordinator(s.work) && s.work != Halted
    ensures Ordered(t) && OneSlot(t)
  {
  }

  lemma ReleaseCallLeaves(s: State)
    requires s.budget.Sound() && CanWrite(s, ReleaseCall)
    ensures
      var t := DoWrite(s, ReleaseCall);
      t.inb == s.inb && t.cfg == s.cfg && t.stopping == s.stopping
  {
    hide Release, Grant;
  }

  lemma WriteSafe(s: State, step: WriteStep)
    requires Safe(s) && CanWrite(s, step)
    ensures Safe(DoWrite(s, step))
  {
    WriteEffect(s, step);
    WriteWork(s, step);
    if step.ReleaseCall? { ReleaseCallLeaves(s); } else { WriteLeavesAll(s, step); }
    hide Effect, Conserved, DoWrite, Ordered, OneSlot, Arriving, SlotWithCoordinator;
    Carry(s, DoWrite(s, step), WriteChange(step));
    WriteControl(s, DoWrite(s, step));
  }

  // ---- every run -----------------------------------------------------------------------------------------

  lemma StepSafe(s: State, step: Step)
    requires Safe(s) && Can(s, step)
    ensures Safe(Do(s, step))
  {
    match step {
      case OfCall(c) => CallSafe(s, c);
      case OfRead(r) => ReadSafe(s, r);
      case OfPump(p) => PumpSafe(s, p);
      case OfSelect(c) => SelectSafe(s, c);
      case OfObserve(o) => ObserveSafe(s, o);
      case OfArrival(a) => ArrivalSafe(s, a);
      case OfWrite(w) => WriteSafe(s, w);
      case OfDispatch(d) => DispatchSafe(s, d);
      case OfEnd(e) => EndSafe(s, e);
    }
  }

  lemma InitSafe(cfg: Config)
    ensures Safe(Init(cfg))
  {
    InitConserved(cfg);
  }

  /** Safe in every reachable state. */
  lemma {:induction false} RunSafe(s: State, steps: seq<Step>)
    requires Safe(s) && CanAll(s, steps)
    ensures Safe(DoAll(s, steps))
    decreases |steps|
  {
    if steps != [] {
      StepSafe(s, steps[0]);
      RunSafe(Do(s, steps[0]), steps[1..]);
    }
  }
}
