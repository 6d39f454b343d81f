/**
 Which branches lose a decoded packet. Nothing is lost while the stream has not been
 told to stop and its coordinator still runs; beyond that the source does lose packets,
 in exactly the branches named by `Drops`.
 */
module StreamDrops {
  import opened Wrappers
  import opened Budget
  import opened Stream
  import opened StreamBalance
  import opened StreamConservation
  import opened StreamSafety
  import opened StreamSafe
  import opened StreamInbound

  /** What Read has returned and can still return; a coordinator that has left keeps nothing for it. */
  function Kept(s: State): seq<Arrival> {
    s.inb.received + s.inb.queue + if s.work == Halted then [] else Waiting(s)
  }

  /** The packet a step decodes. */
  function JustDecoded(s: State, step: Step): seq<Arrival>
    requires Can(s, step)
  {
    match step
    case OfArrival(Decode(Decoded(size, commits, _))) => [Arrival(s.work.frame, size, commits)]
    case _ => []
  }

  /** The coordinator leaves the loop here without handing its pending packet over. */
  predicate LeavesPending(s: State, step: Step)
    requires Can(s, step)
  {
    match step
    case OfSelect(NoticePending) => !s.budget.requests[s.inb.pending.value.request].granted
    case OfSelect(SnapshotStops) => true
    case OfWrite(ReleaseCall) => s.work.last
    case OfWrite(BuildGoodbye(supported, built)) => !supported || !built
    case OfWrite(GoodbyeResult(_, _)) => !s.out.result.value
    case OfWrite(GoodbyeGivenUp(_)) => true
    case OfObserve(Ask) => !s.cfg.sink && s.work.next.GoodbyeNext?
    case OfObserve(Push) => s.work.next.GoodbyeNext?
    case OfObserve(Resume) => s.work.next.GoodbyeNext? || s.work.next.GoodbyeRawNext?
    case _ => false
  }

  predicate Drops(s: State, step: Step)
    requires Can(s, step)
  {
    match step
    case OfArrival(HandOver) => |s.inb.queue| >= s.cfg.maxItems
    case OfArrival(QueueClosed) => !s.stopping
    case OfObserve(Resume) => (s.work.next.QueueNext? && !s.stopping) || (s.inb.pending.Some? && LeavesPending(s, step))
    case _ => s.inb.pending.Some? && LeavesPending(s, step)
  }

  /** A step keeps every packet it had and adds the one it decodes, unless it takes a dropping branch. */
  predicate DropsExactly(s: State, step: Step)
    requires s.budget.Sound() && Can(s, step)
  {
    if Drops(s, step) then |Kept(Do(s, step))| < |Kept(s)|
    else Kept(Do(s, step)) == Kept(s) + JustDecoded(s, step)
  }

  lemma SelectDrops(s: State, step: SelectStep)
    requires s.budget.Sound() && CanSelect(s, step)
    ensures DropsExactly(s, OfSelect(step))
  {
    hide Allowance.Sound;
    var t := DoSelect(s, step);
    assert t.inb.(reader := s.inb.reader) == s.inb;
    if Drops(s, OfSelect(step)) { assert |Kept(t)| < |Kept(s)|; }
  }

  lemma WriteDrops(s: State, step: WriteStep)
    requires Safe(s) && CanWrite(s, step)
    ensures DropsExactly(s, OfWrite(step))
  {
    WriteLeavesInbound(s, step);
    WriteHalts(s, step);
    assert s.budget.Sound();
    hide DoWrite, CanWrite, Safe, Drops, LeavesPending, Carried, NextOf, Kept, EndsStay, Allowance.Sound;
    assert Waiting(s) == [] <==> s.inb.pending.None?;
    hide Waiting;
    KeptOrLost(s, DoWrite(s, step), Drops(s, OfWrite(step)));
  }

  lemma WriteHalts(s: State, step: WriteStep)
    requires s.budget.Sound() && CanWrite(s, step)
    ensures DoWrite(s, step).work == Halted <==> LeavesPending(s, OfWrite(step))
    ensures Drops(s, OfWrite(step)) <==> s.inb.pending.Some? && LeavesPending(s, OfWrite(step))
    ensures s.work != Halted
  {
    hide Release, Allowance.Sound, Report;
  }

  lemma ObserveHalts(s: State, step: ObserveStep)
    requires Safe(s) && CanObserve(s, step)
    ensures
      var t := DoObserve(s, step);
      && (Drops(s, OfObserve(step)) ==> t.work == Halted && Waiting(s) != [])
      && (!Drops(s, OfObserve(step)) && t.work == Halted ==> Waiting(s) == [])
      && (t.work != Halted ==> Carried(t.work) == Carried(s.work))
      && s.work != Halted
  {
    hide Reserve, Release, Cancel, Allowance.Sound, Report, Conserved, Ceiling, Room, OneSlot;
  }

  lemma ObserveDrops(s: State, step: ObserveStep)
    requires Safe(s) && CanObserve(s, step)
    ensures DropsExactly(s, OfObserve(step))
  {
    ObserveLeaves(s, step);
    ObserveHalts(s, step);
    assert s.budget.Sound();
    hide DoObserve, CanObserve, Safe, GoesOn, NextOf, Carried, Drops, Kept, Waiting, EndsStay, Allowance.Sound;
    KeptOrLost(s, DoObserve(s, step), Drops(s, OfObserve(step)));
  }

  /** A coordinator that stays keeps what it has; one that leaves loses it. */
  lemma KeptOrLost(s: State, t: State, lost: bool)
    requires PacketsStay(s, t) && s.work != Halted
    requires lost ==> t.work == Halted && Waiting(s) != []
    requires !lost && t.work == Halted ==> Waiting(s) == []
    requires t.work != Halted ==> Carried(t.work) == Carried(s.work)
    ensures if lost then |Kept(t)| < |Kept(s)| else Kept(t) == Kept(s)
  {
    hide Carried;
    if t.work == Halted && Waiting(s) != [] { assert |Kept(t)| < |Kept(s)|; }
  }

  lemma QueuedDrops(s: State, step: ArrivalStep)
    requires s.budget.Sound() && Ordered(s) && Room(s)
    requires CanArrival(s, step) && (step.SendPending? || step.SendHandOff? || step.HandOver?)
    ensures DropsExactly(s, OfArrival(step))
  {
    QueuedMoves(s, step);
    hide DoArrival, CanArrival, Ordered, Room, Waiting, Allowance.Sound, Kept, Drops, JustDecoded;
    QueuedOrLost(s, DoArrival(s, step), Drops(s, OfArrival(step)));
  }

  lemma QueuedOrLost(s: State, t: State, lost: bool)
    requires Waiting(t) == [] && |Waiting(s)| == 1 && t.inb.received == s.inb.received && s.work != Halted
    requires t.inb.queue == if lost then s.inb.queue else s.inb.queue + Waiting(s)
    ensures if lost then |Kept(t)| < |Kept(s)| else Kept(t) == Kept(s)
  {
    hide Waiting;
    if lost { assert |Kept(t)| < |Kept(s)|; }
  }

  /** The one packet waiting goes to the end of the queue, or is gone. */
  lemma QueuedMoves(s: State, step: ArrivalStep)
    requires s.budget.Sound() && Ordered(s) && Room(s)
    requires CanArrival(s, step) && (step.SendPending? || step.SendHandOff? || step.HandOver?)
    ensures
      var t := DoArrival(s, step);
      && Waiting(t) == [] && |Waiting(s)| == 1 && t.inb.received == s.inb.received && s.work != Halted
      && t.inb.queue == (if Drops(s, OfArrival(step)) then s.inb.queue else s.inb.queue + Waiting(s))
      && JustDecoded(s, OfArrival(step)) == []
  {
    hide Release, Allowance.Sound;
  }

  /** The packet stays with the coordinator, unless the coordinator leaves. */
  predicate Carries(s: State, t: State, step: ArrivalStep)
    requires CanArrival(s, step)
  {
    && t.inb.received == s.inb.received && t.inb.queue == s.inb.queue && s.work != Halted
    && if Drops(s, OfArrival(step)) then t.work == Halted && Waiting(s) != [] == JustDecoded(s, OfArrival(step))
       else if t.work == Halted then Waiting(s) + JustDecoded(s, OfArrival(step)) == []
       else Waiting(t) == Waiting(s) + JustDecoded(s, OfArrival(step))
  }

  lemma DecodeCarries(s: State, step: ArrivalStep)
    requires s.budget.Sound() && Ordered(s) && CanArrival(s, step) && step.Decode?
    ensures Carries(s, DoArrival(s, step), step)
  {
    hide Allowance.Sound;
  }

  lemma HandOffCarries(s: State, step: ArrivalStep)
    requires s.budget.Sound() && CanArrival(s, step) && (step.CheckHandOff? || step.CancelHandOff? || step.SendStopped?)
    ensures Carries(s, DoArrival(s, step), step)
  {
    hide Cancel, Allowance.Sound;
  }

  lemma QueueingCarries(s: State, step: ArrivalStep)
    requires s.budget.Sound() && Ordered(s) && CanArrival(s, step)
    requires step.ReserveQueue? || step.QueueClosed? || step.ChargeArrival?
    ensures Carries(s, DoArrival(s, step), step)
  {
    hide Reserve, Allowance.Sound;
  }

  lemma ArrivalCarries(s: State, step: ArrivalStep)
    requires s.budget.Sound() && Ordered(s) && CanArrival(s, step)
    requires !step.SendPending? && !step.SendHandOff? && !step.HandOver?
    ensures Carries(s, DoArrival(s, step), step)
  {
    hide Allowance.Sound, Ordered, DoArrival, Carries;
    match step {
      case Decode(_) => DecodeCarries(s, step);
      case CheckHandOff => HandOffCarries(s, step);
      case CancelHandOff => HandOffCarries(s, step);
      case SendStopped => HandOffCarries(s, step);
      case _ => QueueingCarries(s, step);
    }
  }

  lemma CarriesDrops(s: State, step: ArrivalStep)
    requires s.budget.Sound() && CanArrival(s, step) && Carries(s, DoArrival(s, step), step)
    ensures DropsExactly(s, OfArrival(step))
  {
    hide Drops, Waiting, JustDecoded, CanArrival, DoArrival, Allowance.Sound;
    if Drops(s, OfArrival(step)) { assert |Kept(DoArrival(s, step))| < |Kept(s)|; }
  }

  lemma ArrivalDrops(s: State, step: ArrivalStep)
    requires Safe(s) && CanArrival(s, step)
    ensures DropsExactly(s, OfArrival(step))
  {
    assert s.budget.Sound() && Ordered(s) && Room(s);
    hide DoArrival, Safe, Room, Ordered, Allowance.Sound, DropsExactly;
    if step.SendPending? || step.SendHandOff? || step.HandOver? {
      QueuedDrops(s, step);
    } else {
      ArrivalCarries(s, step);
      CarriesDrops(s, step);
    }
  }

  lemma ElsewhereDrops(s: State, t: State)
    requires t.work == s.work && t.inb.received == s.inb.received && t.inb.queue == s.inb.queue
    requires t.inb.pending == s.inb.pending
    ensures Kept(t) == Kept(s)
  {
    hide Carried;
  }

  lemma ReadDrops(s: State, step: ReadStep)
    requires s.budget.Sound() && CanRead(s, step)
    ensures DropsExactly(s, OfRead(step))
  {
    ReadMoves(s, step);
    hide DoRead, CanRead, Carried, Allowance.Sound;
    assert Kept(DoRead(s, step)) == Kept(s);
  }

  lemma EndLeaves(s: State, step: EndStep)
    requires s.budget.Sound() && CanEnd(s, step)
    ensures DoEnd(s, step).work == s.work && DoEnd(s, step).inb == s.inb
  {
    hide Close;
  }

  lemma OthersDrop(s: State, step: Step)
    requires s.budget.Sound() && Can(s, step) && (step.OfCall? || step.OfPump? || step.OfDispatch? || step.OfEnd?)
    ensures DropsExactly(s, step)
  {
    hide Kept, Allowance.Sound, Release, Close;
    match step {
      case OfCall(c) => CallLeaves(s, c); hide DoCall; ElsewhereDrops(s, DoCall(s, c));
      case OfPump(p) => ElsewhereDrops(s, DoPump(s, p));
      case OfDispatch(d) => DispatchLeaves(s, d); ElsewhereDrops(s, DoDispatch(s, d));
      case OfEnd(e) => EndLeaves(s, e); ElsewhereDrops(s, DoEnd(s, e));
    }
  }

  /** A decoded packet is lost by these branches, and by no other. */
  lemma StepDrops(s: State, step: Step)
    requires Safe(s) && Can(s, step)
    ensures DropsExactly(s, step)
  {
    assert s.budget.Sound();
    hide DropsExactly, Safe, Allowance.Sound;
    match step {
      case OfRead(r) => ReadDrops(s, r);
      case OfSelect(c) => SelectDrops(s, c);
      case OfObserve(o) => ObserveDrops(s, o);
      case OfArrival(a) => ArrivalDrops(s, a);
      case OfWrite(w) => WriteDrops(s, w);
      case _ => OthersDrop(s, step);
    }
  }

  // ---- a whole run ----------------------------------------------------------------------------

  lemma DecodedGrows(s: State, step: Step)
    requires s.budget.Sound() && Can(s, step)
    ensures Do(s, step).inb.decoded == s.inb.decoded + JustDecoded(s, step)
    ensures Drops(s, step) ==> JustDecoded(s, step) == []
  {
    hide Release, Reserve, Close, Allowance.Sound;
    match step {
      case OfCall(c) => CallLeaves(s, c); hide DoCall;
      case OfObserve(o) => ObserveLeaves(s, o); hide DoObserve;
      case OfArrival(a) => if !a.Decode? { ArrivalParts(s, a); hide DoArrival; }
      case OfWrite(w) => WriteLeavesInbound(s, w); hide DoWrite;
      case _ =>
    }
  }

  /** Some step of the run takes a dropping branch. */
  predicate SomeDrops(s: State, steps: seq<Step>)
    requires s.budget.Sound() && CanAll(s, steps)
    decreases |steps|
  {
    steps != [] && (Drops(s, steps[0]) || SomeDrops(Do(s, steps[0]), steps[1..]))
  }

  lemma {:induction false} RunDrops(s: State, steps: seq<Step>)
    requires Safe(s) && CanAll(s, steps)
    ensures
      var t := DoAll(s, steps);
      && s.inb.decoded <= t.inb.decoded
      && if SomeDrops(s, steps) then |Kept(t)| - |Kept(s)| < |t.inb.decoded| - |s.inb.decoded|
         else Kept(t) == Kept(s) + t.inb.decoded[|s.inb.decoded|..]
    decreases |steps|
  {
    assert s.budget.Sound();
    hide Allowance.Sound, Safe, Do, Can, Drops, Kept, JustDecoded;
    if steps == [] {
      assert Kept(s) + [] == Kept(s);
    } else {
      StepSafe(s, steps[0]);
      StepDrops(s, steps[0]);
      DecodedGrows(s, steps[0]);
      var t := Do(s, steps[0]);
      RunDrops(t, steps[1..]);
      OneMoreStep(Kept(s), Kept(t), Kept(DoAll(t, steps[1..])), s.inb.decoded, t.inb.decoded, DoAll(t, steps[1..]).inb.decoded,
                  JustDecoded(s, steps[0]), Drops(s, steps[0]), SomeDrops(t, steps[1..]));
    }
  }

  /** What was kept (k) and decoded (d) before a step, after it, and at the end of the run. */
  lemma OneMoreStep(k0: seq<Arrival>, k1: seq<Arrival>, k2: seq<Arrival>, d0: seq<Arrival>, d1: seq<Arrival>, d2: seq<Arrival>,
                    decodes: seq<Arrival>, drops: bool, dropsLater: bool)
    requires d1 == d0 + decodes && (drops ==> decodes == [])
    requires if drops then |k1| < |k0| else k1 == k0 + decodes
    requires d1 <= d2 && if dropsLater then |k2| - |k1| < |d2| - |d1| else k2 == k1 + d2[|d1|..]
    ensures d0 <= d2 && if drops || dropsLater then |k2| - |k0| < |d2| - |d0| else k2 == k0 + d2[|d0|..]
  {
    assert d2 == d0 + (decodes + d2[|d1|..]);
  }

  /** Everything decoded is still Read's to return, or returned, exactly when no step dropped a packet. */
  lemma NothingLost(cfg: Config, steps: seq<Step>)
    requires CanAll(Init(cfg), steps)
    ensures Kept(DoAll(Init(cfg), steps)) == DoAll(Init(cfg), steps).inb.decoded <==> !SomeDrops(Init(cfg), steps)
  {
    hide CanAll, DoAll, Init, Safe, Kept, SomeDrops, Allowance.Sound;
    StartsEmpty(cfg);
    RunDrops(Init(cfg), steps);
  }

  lemma StartsEmpty(cfg: Config)
    ensures Safe(Init(cfg)) && Kept(Init(cfg)) == Init(cfg).inb.decoded == []
  {
    InitSafe(cfg);
    hide Safe, New, Allowance.Sound;
  }

  // ---- termination is for good --------------------------------------------------------------

  /** A Read says the stream is over exactly once it is done and nothing is left to return. */
  lemma EndReported(s: State, step: Step)
    requires s.budget.Sound() && Can(s, step)
    ensures Do(s, step).inb.ended <==> s.inb.ended || step == OfRead(ReportEnd)
    ensures step == OfRead(ReportEnd) ==> s.done && s.inb.queue == []
  {
    hide Release, Close, Allowance.Sound, DoSelect, DoObserve, DoArrival, DoWrite, DoCall, CanCall, CanSelect, CanObserve, CanArrival, CanWrite;
    match step {
      case OfCall(c) => CallLeaves(s, c);
      case OfObserve(o) => ObserveLeaves(s, o);
      case OfArrival(a) => ArrivalKeepsEnd(s, a);
      case OfWrite(w) => WriteLeavesInbound(s, w);
      case OfSelect(c) => SelectKeepsEnd(s, c);
      case _ =>
    }
  }

  lemma ArrivalKeepsEnd(s: State, step: ArrivalStep)
    requires s.budget.Sound() && CanArrival(s, step)
    ensures DoArrival(s, step).inb.ended == s.inb.ended
  {
    hide Allowance.Sound;
    if !step.Decode? { ArrivalParts(s, step); hide DoArrival; }
  }

  lemma SelectKeepsEnd(s: State, step: SelectStep)
    requires CanSelect(s, step)
    ensures DoSelect(s, step).inb.ended == s.inb.ended
  {
  }

  lemma EndedStays(s: State, step: Step)
    requires Safe(s) && InboundOrder(s) && Can(s, step) && s.inb.ended
    ensures Do(s, step).inb.ended && Do(s, step).inb.received == s.inb.received
  {
    assert s.budget.Sound() && s.work == Halted && s.inb.queue == [];
    HaltedWaits(s, step);
    hide Release, Close, Allowance.Sound, Safe, InboundOrder, DoSelect, DoObserve, DoArrival, DoWrite;
    match step {
      case OfCall(c) => CallLeaves(s, c); hide DoCall;
      case OfDispatch(d) => DispatchLeaves(s, d); hide DoDispatch;
      case OfEnd(e) => EndLeaves(s, e); hide DoEnd;
      case _ =>
    }
  }

  /** A coordinator that has left takes no step. */
  lemma HaltedWaits(s: State, step: Step)
    requires s.work == Halted && Can(s, step)
    ensures step.OfCall? || step.OfRead? || step.OfPump? || step.OfDispatch? || step.OfEnd?
  {
  }

  /** Once a Read has reported that the stream is over, no Read ever returns another packet. */
  lemma {:induction false} EndedForGood(s: State, steps: seq<Step>)
    requires Safe(s) && InboundOrder(s) && CanAll(s, steps) && s.inb.ended
    ensures DoAll(s, steps).inb.ended && DoAll(s, steps).inb.received == s.inb.received
    decreases |steps|
  {
    if steps != [] {
      EndedStays(s, steps[0]);
      StepSafe(s, steps[0]);
      StepOrder(s, steps[0]);
      EndedForGood(Do(s, steps[0]), steps[1..]);
    }
  }
}
