/**
 The inbound side of the stream over every run: what Read returns is what was
 decoded, in order, each packet after its own transition; nothing is missing while
 the stream has not been told to stop; and once Read has reported termination it
 never returns another packet.
 */
module StreamInbound {
  import opened Wrappers
  import opened Budget
  import opened Stream
  import opened StreamBalance
  import opened StreamConservation
  import opened StreamSafety
  import opened StreamSafe

  // ---- where decoded packets are -----------------------------------------------------------

  /** The decoded packet the coordinator itself is carrying, if any. */
  function Carried(work: Work): seq<Arrival> {
    match work
    case Queueing(a) => [a]
    case QueueRefused(a) => [a]
    case Charging(a, _) => [a]
    case HandingOver(a, _) => [a]
    case _ => if NextOf(work).Some? && NextOf(work).value.QueueNext? then [NextOf(work).value.arrival] else []
  }

  /** The decoded packet that has yet to reach the Read queue, if any. */
  function Waiting(s: State): seq<Arrival> {
    (if s.inb.pending.Some? then [s.inb.pending.value.arrival] else []) + Carried(s.work)
  }

  /** Everything Read has returned, then everything it can still return. */
  function Line(s: State): seq<Arrival> {
    s.inb.received + s.inb.queue + Waiting(s)
  }

  /** The frame being decoded. */
  function Undecoded(work: Work): Option<nat> {
    if work.Decoding? then Some(work.frame)
    else if NextOf(work).Some? && NextOf(work).value.DecodeNext? then Some(NextOf(work).value.frame)
    else None
  }

  predicate Ascending(items: seq<Arrival>) {
    forall i, j :: 0 <= i < j < |items| ==> items[i].frame < items[j].frame
  }

  predicate AllFrom(items: seq<Arrival>, source: seq<Arrival>) {
    forall i :: 0 <= i < |items| ==> items[i] in source
  }

  predicate AllBelow(items: seq<Arrival>, frame: nat) {
    forall i :: 0 <= i < |items| ==> items[i].frame < frame
  }

  predicate AllCommitted(items: seq<Arrival>, applied: set<nat>) {
    forall i :: 0 <= i < |items| && items[i].commits ==> items[i].frame in applied
  }

  // ---- the invariant --------------------------------------------------------------------------

  predicate Numbered(s: State) {
    && Ascending(s.inb.decoded)
    && AllBelow(s.inb.decoded, s.frames + 1)
    && (Undecoded(s.work).Some? ==> Undecoded(s.work).value == s.frames && AllBelow(s.inb.decoded, s.frames))
  }

  predicate Ended(s: State) {
    && (s.rec.finishing ==> s.work == Halted)
    && (s.done ==> s.rec.finishing)
    && (s.inb.ended ==> s.done && s.inb.queue == [])
  }

  predicate InboundOrder(s: State) {
    && Numbered(s)
    && Ended(s)
    && AllCommitted(s.inb.decoded, s.applied)
    && Ascending(Line(s)) && AllFrom(Line(s), s.inb.decoded)
    && (!s.stopping ==> Line(s) == s.inb.decoded)
  }

  // ---- steps that touch no packet -----------------------------------------------------------------

  /** Nothing about packets differs, except that a coordinator carrying none may carry on. */
  predicate PacketsStay(s: State, t: State) {
    && t.inb.decoded == s.inb.decoded && t.inb.received == s.inb.received && t.inb.queue == s.inb.queue
    && t.inb.pending == s.inb.pending && t.inb.ended == s.inb.ended
    && s.applied <= t.applied && (s.stopping ==> t.stopping)
  }

  predicate EndsStay(s: State, t: State) {
    t.rec.finishing == s.rec.finishing && t.done == s.done && s.work != Halted
  }

  lemma ElsewhereOrder(s: State, t: State)
    requires InboundOrder(s) && PacketsStay(s, t) && t.work == s.work && t.frames == s.frames
    requires Ended(t)
    ensures InboundOrder(t)
  {
    hide NextOf;
  }

  lemma CarryOnOrder(s: State, t: State)
    requires InboundOrder(s) && PacketsStay(s, t) && EndsStay(s, t) && s.frames <= t.frames
    requires Carried(s.work) == Carried(t.work) || (t.stopping && Carried(t.work) == [])
    requires Undecoded(t.work).None? || (Undecoded(t.work) == Undecoded(s.work) && t.frames == s.frames)
    ensures InboundOrder(t)
  {
    hide NextOf, Carried, Undecoded;
    if Carried(s.work) != Carried(t.work) {
      assert Line(t) == Line(s)[..|Line(t)|];
    }
  }

  lemma CallLeaves(s: State, step: CallStep)
    requires s.budget.Sound() && CanCall(s, step)
    ensures
      var t := DoCall(s, step);
      && t.inb == s.inb && t.work == s.work && t.frames == s.frames && t.applied == s.applied
      && t.rec == s.rec && t.done == s.done && (s.stopping ==> t.stopping)
  {
    hide Reserve, Release, Cancel, Allowance.Sound;
  }

  lemma CallOrder(s: State, step: CallStep)
    requires s.budget.Sound() && InboundOrder(s) && CanCall(s, step)
    ensures InboundOrder(DoCall(s, step))
  {
    CallLeaves(s, step);
    assert Ended(s);
    hide InboundOrder, DoCall, CanCall, Ascending, Line;
    ElsewhereOrder(s, DoCall(s, step));
  }

  lemma PumpOrder(s: State, step: PumpStep)
    requires InboundOrder(s) && CanPump(s, step)
    ensures InboundOrder(DoPump(s, step))
  {
    ElsewhereOrder(s, DoPump(s, step));
  }

  lemma DispatchOrder(s: State, step: DispatchStep)
    requires s.budget.Sound() && InboundOrder(s) && CanDispatch(s, step)
    ensures InboundOrder(DoDispatch(s, step))
  {
    hide Release, Allowance.Sound;
    ElsewhereOrder(s, DoDispatch(s, step));
  }

  lemma EndOrder(s: State, step: EndStep)
    requires s.budget.Sound() && InboundOrder(s) && CanEnd(s, step)
    ensures InboundOrder(DoEnd(s, step))
  {
    hide Close, Allowance.Sound;
    ElsewhereOrder(s, DoEnd(s, step));
  }

  lemma ReportLeavesInbound(s: State, step: WriteStep)
    requires s.budget.Sound() && CanWrite(s, step) && (step.HandStopped? || step.ReadResult?)
    ensures
      var t := DoWrite(s, step);
      && PacketsStay(s, t) && EndsStay(s, t) && s.frames <= t.frames
      && Carried(s.work) == Carried(t.work) == [] && Undecoded(t.work).None?
  {
    hide Release, Allowance.Sound, Report;
    if step.HandStopped? {
      ReportKeepsPhases(s, s.work.call, StreamEnded);
    } else {
      ReportKeepsPhases(s.(out := s.out.(result := None)), s.work.call, TransportFailed);
    }
  }

  lemma WriteLeavesInbound(s: State, step: WriteStep)
    requires s.budget.Sound() && CanWrite(s, step)
    ensures
      var t := DoWrite(s, step);
      && PacketsStay(s, t) && EndsStay(s, t) && s.frames <= t.frames
      && Carried(s.work) == Carried(t.work) == [] && Undecoded(t.work).None?
  {
    hide Release, Allowance.Sound, Report, Reserve;
    if step.HandStopped? || step.ReadResult? {
      hide DoWrite, Carried;
      ReportLeavesInbound(s, step);
    }
  }

  lemma WriteOrder(s: State, step: WriteStep)
    requires s.budget.Sound() && InboundOrder(s) && CanWrite(s, step)
    ensures InboundOrder(DoWrite(s, step))
  {
    WriteLeavesInbound(s, step);
    hide InboundOrder, DoWrite, PacketsStay, EndsStay, Carried, Undecoded;
    CarryOnOrder(s, DoWrite(s, step));
  }

  // ---- steps that do ---------------------------------------------------------------------------------

  /** A Read takes the front of the queue, returns what it took, or reports the end. */
  lemma ReadMoves(s: State, step: ReadStep)
    requires s.budget.Sound() && CanRead(s, step)
    ensures
      var t := DoRead(s, step);
      && t.work == s.work && t.inb.pending == s.inb.pending && t.inb.decoded == s.inb.decoded
      && t.inb.received + t.inb.queue == s.inb.received + s.inb.queue
      && t.frames == s.frames && t.applied == s.applied && t.stopping == s.stopping && t.rec == s.rec && t.done == s.done
      && (s.inb.ended ==> t.inb.ended) && (t.inb.ended ==> s.inb.ended || (s.done && s.inb.queue == []))
      && (s.inb.queue == [] ==> t.inb.queue == [])
  {
    hide Release, Allowance.Sound;
  }

  lemma ReadOrder(s: State, step: ReadStep)
    requires s.budget.Sound() && InboundOrder(s) && CanRead(s, step)
    ensures InboundOrder(DoRead(s, step))
  {
    ReadMoves(s, step);
    var t := DoRead(s, step);
    hide DoRead, CanRead, Allowance.Sound, Carried, Undecoded;
    assert Line(t) == Line(s);
    hide Line, Ascending, AllFrom, AllBelow, AllCommitted;
    assert Ended(t) && Numbered(t);
  }

  lemma SelectOrder(s: State, step: SelectStep)
    requires InboundOrder(s) && CanSelect(s, step)
    ensures InboundOrder(DoSelect(s, step))
  {
    hide Ascending, AllFrom, AllCommitted;
    var t := DoSelect(s, step);
    assert t.inb.(reader := s.inb.reader) == s.inb;
    assert Line(t) == Line(s);
    hide Line;
  }

  /** Making or refusing a record changes neither packets nor frames. */
  lemma ObserveLeaves(s: State, step: ObserveStep)
    requires s.budget.Sound() && CanObserve(s, step)
    ensures
      var t := DoObserve(s, step);
      && PacketsStay(s, t) && EndsStay(s, t) && t.frames == s.frames
      && NextOf(s.work).Some?
      && (NextOf(t.work) == NextOf(s.work) || GoesOn(t.work, NextOf(s.work).value))
      && (t.work == Halted && NextOf(s.work).value.QueueNext? ==> t.stopping)
      && (t.work == Halted && NextOf(s.work).value.DecodeNext? ==> t.stopping)
  {
    hide Reserve, Release, Cancel, Allowance.Sound;
    RecordedGoesOn(s, s.work.next);
    NotSubmittedGoesOn(s, s.work.next);
    if step.Push? {
      RecordedGoesOn(s.(rec := s.rec.(channel := s.rec.channel + [s.work.record])), s.work.next);
    }
    if s.work.next.QueueNext? || s.work.next.DecodeNext? { HaltsOnlyStopping(s, s.work.next); }
    hide Recorded, NotSubmitted;
  }

  lemma HaltsOnlyStopping(s: State, next: Next)
    requires next.QueueNext? || next.DecodeNext?
    ensures Recorded(s, next).work != Halted
    ensures NotSubmitted(s, next).work == Halted ==> NotSubmitted(s, next).stopping
  {
  }

  lemma ObserveOrder(s: State, step: ObserveStep)
    requires s.budget.Sound() && InboundOrder(s) && CanObserve(s, step)
    ensures InboundOrder(DoObserve(s, step))
  {
    hide InboundOrder;
    ObserveLeaves(s, step);
    var t := DoObserve(s, step);
    hide DoObserve;
    CarryOnOrder(s, t);
  }

  lemma DecodedOrder(s: State, t: State, a: Arrival)
    requires InboundOrder(s) && s.inb.pending.None? && Carried(s.work) == []
    requires t.inb.decoded == s.inb.decoded + [a] && t.inb.received == s.inb.received && t.inb.queue == s.inb.queue
    requires t.inb.pending.None? && Carried(t.work) == [a] && Undecoded(t.work).None?
    requires Undecoded(s.work) == Some(a.frame) && t.frames == s.frames
    requires s.applied <= t.applied && (a.commits ==> a.frame in t.applied)
    requires Ended(t) && t.stopping == s.stopping
    ensures InboundOrder(t)
  {
    hide Carried, Undecoded, Ended;
    assert Line(s) == s.inb.received + s.inb.queue;
    assert Line(t) == Line(s) + [a];
    hide Line;
    forall i | 0 <= i < |Line(s)| ensures Line(t)[i].frame < a.frame && Line(t)[i] in t.inb.decoded {
      assert Line(s)[i] in s.inb.decoded;
    }
    assert a in t.inb.decoded;
  }

  lemma DecodeOrder(s: State, step: ArrivalStep)
    requires s.budget.Sound() && InboundOrder(s) && Ordered(s) && CanArrival(s, step) && step.Decode?
    ensures InboundOrder(DoArrival(s, step))
  {
    var t := DoArrival(s, step);
    hide Ascending, AllBelow, AllFrom, AllCommitted, Allowance.Sound, Line;
    if step.result.Decoded? {
      DecodedOrder(s, t, Arrival(s.work.frame, step.result.size, step.result.commits));
    } else {
      CarryOnOrder(s, t);
    }
  }

  /** What is left of the line after a packet in it is dropped: the earlier part. */
  lemma ShorterOrder(s: State, t: State)
    requires InboundOrder(s) && t.inb.decoded == s.inb.decoded && t.applied == s.applied && t.frames == s.frames
    requires Ended(t) && Undecoded(t.work).None? && (s.stopping ==> t.stopping)
    requires |Line(t)| <= |Line(s)| && Line(t) == Line(s)[..|Line(t)|]
    requires !t.stopping ==> Line(t) == Line(s)
    ensures InboundOrder(t)
  {
    hide Line, Undecoded, Ended;
  }

  /** What waits joins the queue, or is dropped at stop. */
  lemma QueueingLine(s: State, step: ArrivalStep)
    requires s.budget.Sound() && Ordered(s) && CanArrival(s, step)
    requires step.HandOver? || step.SendPending? || step.SendHandOff?
    ensures
      var t := DoArrival(s, step);
      && |Line(t)| <= |Line(s)| && Line(t) == Line(s)[..|Line(t)|]
      && (!t.stopping ==> Line(t) == Line(s))
  {
    hide Release, Allowance.Sound;
    var t := DoArrival(s, step);
    var before := s.inb.received + s.inb.queue;
    assert Line(s) == before + Waiting(s);
    assert Waiting(t) == [] || Waiting(t) == Waiting(s);
    if t.inb.queue == s.inb.queue {
      assert Line(t) == before + Waiting(t);
    } else {
      assert t.inb.received + t.inb.queue == before + Waiting(s);
    }
  }

  lemma HandOffLine(s: State, step: ArrivalStep)
    requires s.budget.Sound() && Ordered(s) && CanArrival(s, step) && (step.CheckHandOff? || step.CancelHandOff?)
    ensures Line(DoArrival(s, step)) == Line(s)
  {
    hide Cancel, Allowance.Sound;
    var t := DoArrival(s, step);
    assert t.inb.queue == s.inb.queue && t.inb.received == s.inb.received;
  }

  /** Only the refused packet of a running stream is dropped. */
  lemma SameLine(s: State, step: ArrivalStep)
    requires s.budget.Sound() && Ordered(s) && CanArrival(s, step)
    requires step.ReserveQueue? || step.QueueClosed? || step.ChargeArrival? || step.SendStopped?
    ensures Line(DoArrival(s, step)) == Line(s) || (Line(DoArrival(s, step)) == s.inb.received + s.inb.queue && DoArrival(s, step).stopping)
  {
    hide Reserve, Allowance.Sound;
    var t := DoArrival(s, step);
    assert t.inb.queue == s.inb.queue && t.inb.received == s.inb.received;
  }

  /** The packet moves along the line, or drops off its end. */
  lemma ArrivalLine(s: State, step: ArrivalStep)
    requires s.budget.Sound() && Ordered(s) && CanArrival(s, step) && !step.Decode?
    ensures
      var t := DoArrival(s, step);
      && |Line(t)| <= |Line(s)| && Line(t) == Line(s)[..|Line(t)|]
      && (!t.stopping ==> Line(t) == Line(s))
  {
    if step.HandOver? || step.SendPending? || step.SendHandOff? {
      QueueingLine(s, step);
    } else if step.CheckHandOff? || step.CancelHandOff? {
      HandOffLine(s, step);
    } else {
      SameLine(s, step);
    }
    hide DoArrival;
  }

  lemma ArrivalParts(s: State, step: ArrivalStep)
    requires s.budget.Sound() && CanArrival(s, step) && !step.Decode?
    ensures
      var t := DoArrival(s, step);
      && t.inb.decoded == s.inb.decoded && t.inb.ended == s.inb.ended && t.applied == s.applied && t.frames == s.frames
      && t.rec == s.rec && t.done == s.done && s.work != Halted && Undecoded(t.work).None? && (s.stopping ==> t.stopping)
      && (t.inb.queue == s.inb.queue || !s.inb.ended || t.inb.ended)
  {
    hide Reserve, Release, Cancel, Allowance.Sound;
  }

  lemma ArrivalOrder(s: State, step: ArrivalStep)
    requires s.budget.Sound() && InboundOrder(s) && Ordered(s) && CanArrival(s, step)
    ensures InboundOrder(DoArrival(s, step))
  {
    hide Reserve, Release, Cancel, Allowance.Sound, Line, Ascending, AllBelow, AllFrom, AllCommitted;
    if step.Decode? {
      DecodeOrder(s, step);
    } else {
      ArrivalLine(s, step);
      ArrivalParts(s, step);
      hide DoArrival;
      ShorterOrder(s, DoArrival(s, step));
    }
  }

  // ---- every run ---------------------------------------------------------------------------------------

  lemma StepOrder(s: State, step: Step)
    requires Safe(s) && InboundOrder(s) && Can(s, step)
    ensures InboundOrder(Do(s, step))
  {
    hide InboundOrder;
    match step {
      case OfCall(c) => CallOrder(s, c);
      case OfRead(r) => ReadOrder(s, r);
      case OfPump(p) => PumpOrder(s, p);
      case OfSelect(c) => SelectOrder(s, c);
      case OfObserve(o) => ObserveOrder(s, o);
      case OfArrival(a) => ArrivalOrder(s, a);
      case OfWrite(w) => WriteOrder(s, w);
      case OfDispatch(d) => DispatchOrder(s, d);
      case OfEnd(e) => EndOrder(s, e);
    }
  }

  lemma {:induction false} RunOrder(s: State, steps: seq<Step>)
    requires Safe(s) && InboundOrder(s) && CanAll(s, steps)
    ensures InboundOrder(DoAll(s, steps))
    decreases |steps|
  {
    if steps != [] {
      StepSafe(s, steps[0]);
      StepOrder(s, steps[0]);
      RunOrder(Do(s, steps[0]), steps[1..]);
    }
  }
}
