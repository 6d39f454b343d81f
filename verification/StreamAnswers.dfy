/**
 Why a Write call is told what it is told (stream_runtime.go): each outcome has its own
 causes, and a call is told it by exactly those.
 */
module StreamAnswers {
  import opened Wrappers
  import opened Budget
  import opened Stream
  import opened StreamBalance
  import opened StreamConservation
  import opened StreamSafety
  import opened StreamSafe
  import opened StreamInbound
  import opened StreamWrites

  // ---- by the coordinator ---------------------------------------------------------------------

  /** The record in hand is made by this step, or there is nobody to make it for. */
  predicate Records(s: State, step: Step) {
    step == OfObserve(Push) || (step == OfObserve(Ask) && !s.cfg.sink)
  }

  /** The frame of this call is on the wire and being recorded. */
  predicate RecordingSent(next: Next, w: nat) {
    next == SentNext(w) || (next.SentRawNext? && next.call == w)
  }

  predicate ReportsBecause(s: State, step: Step, w: nat, o: Outcome)
    requires Can(s, step)
  {
    match o
    case Sent =>
      || (Records(s, step) && s.work.next == SentNext(w))
      || (step == OfObserve(Resume) && s.stopping && RecordingSent(s.work.next, w))
    case NotRecorded => step == OfObserve(Resume) && !s.stopping && RecordingSent(s.work.next, w)
    case TransportFailed =>
      step.OfWrite? && step.write.ReadResult? && s.work.call == w && s.out.result == Some(false)
    case StreamEnded => step == OfWrite(HandStopped) && s.work.call == w
    case RefusedBySession => (Records(s, step) || step == OfObserve(Resume)) && s.work.next == RefuseNext(w)
    case _ => false
  }

  /** A call with no answer gets this one by these steps and no others; an answer given is not replaced. */
  predicate ReportsExactly(s: State, step: Step, t: State, w: nat, o: Outcome)
    requires Can(s, step) && w < |s.out.calls|
  {
    && |t.out.calls| >= |s.out.calls|
    && if s.out.calls[w].result.Some? then t.out.calls[w].result == s.out.calls[w].result
       else t.out.calls[w].result == Some(o) <==> ReportsBecause(s, step, w, o)
  }

  lemma ObserveReports(s: State, step: ObserveStep, w: nat, o: Outcome)
    requires s.budget.Sound() && CanObserve(s, step) && w < |s.out.calls|
    ensures ReportsExactly(s, OfObserve(step), DoObserve(s, step), w, o)
  {
    hide Reserve, Release, Cancel, Allowance.Sound, Recorded, NotSubmitted;
    match step {
      case Ask => RecordedReports(s, s.work.next, w, o);
      case Push => RecordedReports(s.(rec := s.rec.(channel := s.rec.channel + [s.work.record])), s.work.next, w, o);
      case Resume => NotSubmittedReports(s, s.work.next, w, o);
      case _ =>
    }
  }

  predicate ReportsWhen(s: State, t: State, w: nat, o: Outcome, because: bool)
    requires w < |s.out.calls|
  {
    && |t.out.calls| == |s.out.calls|
    && if s.out.calls[w].result.Some? then t.out.calls[w].result == s.out.calls[w].result
       else t.out.calls[w].result == Some(o) <==> because
  }

  lemma RecordedReports(s: State, next: Next, w: nat, o: Outcome)
    requires w < |s.out.calls|
    ensures ReportsWhen(s, Recorded(s, next), w, o, (o == Sent && next == SentNext(w)) || (o == RefusedBySession && next == RefuseNext(w)))
  {
  }

  lemma NotSubmittedReports(s: State, next: Next, w: nat, o: Outcome)
    requires w < |s.out.calls|
    ensures ReportsWhen(s, NotSubmitted(s, next), w, o,
      (RecordingSent(next, w) && o == if s.stopping then Sent else NotRecorded) || (o == RefusedBySession && next == RefuseNext(w)))
  {
  }

  lemma WriteReports(s: State, step: WriteStep, w: nat, o: Outcome)
    requires s.budget.Sound() && CanWrite(s, step) && w < |s.out.calls|
    ensures ReportsExactly(s, OfWrite(step), DoWrite(s, step), w, o)
  {
    hide Release, Allowance.Sound;
  }

  lemma CallReports(s: State, step: CallStep, w: nat, o: Outcome)
    requires s.budget.Sound() && CanCall(s, step) && w < |s.out.calls|
    ensures ReportsExactly(s, OfCall(step), DoCall(s, step), w, o)
  {
    hide Reserve, Release, Cancel, Allowance.Sound;
  }

  lemma ReportedExactly(s: State, step: Step, w: nat, o: Outcome)
    requires s.budget.Sound() && Can(s, step) && w < |s.out.calls|
    ensures ReportsExactly(s, step, Do(s, step), w, o)
  {
    hide Release, Close, Allowance.Sound, DoCall, DoObserve, DoArrival, DoWrite;
    match step {
      case OfCall(c) => CallReports(s, c, w, o); hide ReportsExactly;
      case OfObserve(b) => ObserveReports(s, b, w, o); hide ReportsExactly;
      case OfArrival(a) => ArrivalLeavesCalls(s, a);
      case OfWrite(c) => WriteReports(s, c, w, o); hide ReportsExactly;
      case _ =>
    }
  }

  lemma ArrivalLeavesCalls(s: State, step: ArrivalStep)
    requires s.budget.Sound() && CanArrival(s, step)
    ensures DoArrival(s, step).out == s.out
  {
    hide Reserve, Release, Cancel, Charge, Allowance.Sound;
  }

  // ---- by itself --------------------------------------------------------------------------------

  predicate ToldBecause(s: State, step: Step, w: nat, o: Outcome)
    requires s.budget.Sound() && Can(s, step)
  {
    || (step == OfCall(TakeResult(w)) && s.out.calls[w].result == Some(o))
    || match o
       case ContextEnded =>
         || step == OfCall(GiveUpWaiting(w)) || step == OfCall(GiveUpOffering(w, true))
         || (step == OfCall(GiveUpAccepted(w)) && s.out.calls[w].state == Queued)
       case AmbiguousWrite => step == OfCall(GiveUpAccepted(w)) && s.out.calls[w].state != Queued
       case StreamEnded =>
         || step == OfCall(GiveUpOffering(w, false))
         || (step == OfCall(NoticeGrant(w)) && !s.budget.requests[s.out.calls[w].phase.request].granted)
       case NoBudget => step == OfCall(Enter) && w == |s.out.calls| && (s.budget.closed.Some? || s.budget.maxItems < 1 || s.budget.maxBytes < 0)
       case _ => false
  }

  predicate Returning(t: State, w: nat, o: Outcome) {
    w < |t.out.calls| && t.out.calls[w].phase == Returned(o)
  }

  lemma CallTells(s: State, step: CallStep, w: nat, o: Outcome)
    requires s.budget.Sound() && CanCall(s, step) && (w < |s.out.calls| ==> !s.out.calls[w].phase.Returned?)
    ensures Returning(DoCall(s, step), w, o) <==> ToldBecause(s, OfCall(step), w, o)
  {
    if step.Enter? {
      ReserveRefuses(s.budget, 1, 0);
      hide Reserve, Allowance.Sound;
    } else {
      OneCall(s, step);
      CallerTells(s, step, o);
      hide DoCall, CanCall, Allowance.Sound, ToldBecause;
      if w != step.call { ElsewhereTellsNot(s, step, w, o); }
    }
  }

  lemma CallerTells(s: State, step: CallStep, o: Outcome)
    requires s.budget.Sound() && CanCall(s, step) && !step.Enter?
    ensures step.call < |s.out.calls| && !s.out.calls[step.call].phase.Returned?
    ensures Returning(DoCall(s, step), step.call, o) <==> ToldBecause(s, OfCall(step), step.call, o)
  {
    hide Reserve, Release, Cancel, Allowance.Sound;
  }

  lemma ElsewhereTellsNot(s: State, step: CallStep, w: nat, o: Outcome)
    requires s.budget.Sound() && CanCall(s, step) && !step.Enter? && w != step.call
    ensures !ToldBecause(s, OfCall(step), w, o)
  {
  }

  lemma OthersTellNobody(s: State, step: Step, w: nat, o: Outcome)
    requires s.budget.Sound() && Can(s, step) && !step.OfCall? && (w < |s.out.calls| ==> !s.out.calls[w].phase.Returned?)
    ensures !Returning(Do(s, step), w, o)
  {
    hide Reserve, Release, Cancel, Close, Allowance.Sound, DoWrite, DoArrival, DoObserve;
    match step {
      case OfWrite(c) => WriteKeepsPhases(s, c);
      case OfArrival(a) => ArrivalLeavesCalls(s, a);
      case OfObserve(b) => ObserveKeepsPhases(s, b);
      case _ =>
    }
  }

  lemma WriteKeepsPhases(s: State, step: WriteStep)
    requires s.budget.Sound() && CanWrite(s, step)
    ensures
      var t := DoWrite(s, step);
      |t.out.calls| == |s.out.calls| && forall w :: 0 <= w < |s.out.calls| ==> t.out.calls[w].phase == s.out.calls[w].phase
  {
    hide Release, Allowance.Sound;
  }

  lemma ObserveKeepsPhases(s: State, step: ObserveStep)
    requires s.budget.Sound() && CanObserve(s, step)
    ensures
      var t := DoObserve(s, step);
      |t.out.calls| == |s.out.calls| && forall w :: 0 <= w < |s.out.calls| ==> t.out.calls[w].phase == s.out.calls[w].phase
  {
    hide Reserve, Release, Cancel, Allowance.Sound;
  }

  /** A call that has not returned returns with this outcome by these steps and no others. */
  lemma ToldExactly(s: State, step: Step, w: nat, o: Outcome)
    requires s.budget.Sound() && Can(s, step) && (w < |s.out.calls| ==> !s.out.calls[w].phase.Returned?)
    ensures Returning(Do(s, step), w, o) <==> ToldBecause(s, step, w, o)
  {
    hide DoCall, Allowance.Sound, Returning;
    if step.OfCall? { CallTells(s, step.call, w, o); } else { OthersTellNobody(s, step, w, o); hide Do; }
  }

  // ---- what the coordinator does with a call ---------------------------------------------------------

  /** It comes to refuse a call exactly when the session does not encode or allow its packet. */
  lemma RefusesExactly(s: State, step: Step, w: nat)
    requires s.budget.Sound() && Can(s, step) && NextOf(s.work) != Some(RefuseNext(w))
    ensures NextOf(Do(s, step).work) == Some(RefuseNext(w)) <==>
      s.work == Encoding(w) && step.OfWrite? && step.write.Encode? && step.write.encoded.EncodeFails?
  {
    hide Reserve, Release, Cancel, Close, Allowance.Sound, DoCall, DoArrival, DoObserve, Report;
    match step {
      case OfCall(c) => CallLeaves(s, c);
      case OfArrival(a) => ArrivalNextOf(s, a);
      case OfObserve(b) => ObserveGoesOn(s, b); hide Do, Can;
      case _ =>
    }
  }

  lemma ArrivalNextOf(s: State, step: ArrivalStep)
    requires s.budget.Sound() && CanArrival(s, step)
    ensures var next := NextOf(DoArrival(s, step).work); next.Some? ==> next.value.QueueNext?
  {
    hide Reserve, Release, Cancel, Charge, Allowance.Sound;
  }

  /** It gives a call's frame to the pump only after claiming it, and claims it exactly while the caller has not given up. */
  lemma ClaimsExactly(s: State, bytes: nat)
    requires s.budget.Sound() && CanWrite(s, Begin(bytes)) && s.work.call < |s.out.calls|
    ensures
      var w, t := s.work.call, DoWrite(s, Begin(bytes));
      && (t.work.Handing? <==> s.out.calls[w].state == Queued)
      && (t.work.Handing? ==> t.out.calls[w].state == Started && t.work == Handing(w, s.work.frame, s.work.commits))
      && (!t.work.Handing? ==> t.out == s.out && NextOf(t.work) == Some(ForgetNext(w)))
  {
  }
}
