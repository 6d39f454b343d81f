/**
 The outbound side of the stream over every run: frames reach the write pump in the
 order the coordinator accepted the calls, no call is handed over twice, a goodbye is
 the last frame, and the outcome each Write call is told agrees with what the pump did.
 */
module StreamWrites {
  import opened Wrappers
  import opened Budget
  import opened Stream
  import opened StreamBalance
  import opened StreamConservation
  import opened StreamSafe

  // ---- what the coordinator is doing --------------------------------------------------------

  function NextCall(next: Next): Option<nat> {
    match next
    case RefuseNext(w) => Some(w)
    case ForgetNext(w) => Some(w)
    case SentRawNext(w, _, _) => Some(w)
    case SentNext(w) => Some(w)
    case _ => None
  }

  /** The call being processed, until its outcome is reported. */
  function Serving(work: Work): Option<nat> {
    match work
    case Encoding(w) => Some(w)
    case Beginning(w, _, _) => Some(w)
    case Handing(w, _, _) => Some(w)
    case Awaiting(w, _, _) => Some(w)
    case _ => if NextOf(work).Some? then NextCall(NextOf(work).value) else None
  }

  /** How far the call being processed has got. */
  datatype Progress = Unclaimed | Refusing | Forgetting | Claiming | InPump | OnWire

  function ProgressOf(work: Work): Progress {
    match work
    case Encoding(_) => Unclaimed
    case Beginning(_, _, _) => Unclaimed
    case Handing(_, _, _) => Claiming
    case Awaiting(_, _, _) => InPump
    case _ =>
      if NextOf(work).None? then Unclaimed
      else match NextOf(work).value
           case RefuseNext(_) => Refusing
           case ForgetNext(_) => Forgetting
           case SentRawNext(_, _, _) => OnWire
           case SentNext(_) => OnWire
           case _ => Unclaimed
  }

  /** The coordinator is waiting for the pump's answer. */
  predicate AwaitsPump(work: Work) {
    work.Awaiting? || work.GoodbyeAwaiting?
  }

  /** Nothing is handed to the pump any more. */
  predicate Final(work: Work) {
    work == Halted || work == Releasing(true)
  }

  /** The goodbye has been handed over. */
  predicate SaidGoodbye(work: Work) {
    || work.GoodbyeAwaiting? || work == Halted
    || (NextOf(work).Some? && (NextOf(work).value.GoodbyeRawNext? || NextOf(work).value.GoodbyeNext?))
  }

  // ---- frames -------------------------------------------------------------------------------------

  predicate JobOf(j: Job, w: nat) {
    j.CallJob? && j.call == w
  }

  predicate Handed(jobs: seq<Job>, w: nat) {
    exists i :: 0 <= i < |jobs| && JobOf(jobs[i], w)
  }

  /** Turns rise, and each job is for the call accepted in its turn. */
  predicate InTurn(jobs: seq<Job>, accepted: seq<nat>) {
    && (forall i, k :: 0 <= i < k < |jobs| && jobs[i].CallJob? && jobs[k].CallJob? ==> jobs[i].turn < jobs[k].turn)
    && (forall i :: 0 <= i < |jobs| && jobs[i].CallJob? ==>
          jobs[i].turn < |accepted| && accepted[jobs[i].turn] == jobs[i].call)
  }

  predicate GoodbyeLast(jobs: seq<Job>) {
    forall i :: 0 <= i < |jobs| - 1 ==> jobs[i].CallJob?
  }

  predicate Distinct(s: seq<nat>) {
    forall i, k :: 0 <= i < k < |s| ==> s[i] != s[k]
  }

  predicate LastIs(jobs: seq<Job>, j: Job) {
    jobs != [] && jobs[|jobs| - 1] == j
  }

  /** The coordinator's current call is the last it accepted, and what it awaits is the last it handed over. */
  predicate Current(out: Outbound, work: Work) {
    && (Serving(work).Some? ==> out.accepted != [] && out.accepted[|out.accepted| - 1] == Serving(work).value)
    && (work.Awaiting? ==>
          out.accepted != [] && LastIs(out.handed, CallJob(work.call, |out.accepted| - 1, work.frame, work.commits)))
    && (work.GoodbyeAwaiting? ==> LastIs(out.handed, GoodbyeJob(work.frame)))
    && (out.handed != [] && out.handed[|out.handed| - 1].GoodbyeJob? ==> SaidGoodbye(work))
  }

  /** The pump is busy, or has answered, only while somebody waits, or after a goodbye was given up. */
  predicate PumpFine(out: Outbound, work: Work) {
    && (AwaitsPump(work) ==> out.pump.Writing? || out.result.Some?)
    && (out.pump.Writing? || out.result.Some? ==>
          AwaitsPump(work) || (work == Halted && out.handed != [] && out.handed[|out.handed| - 1].GoodbyeJob?))
    && (out.pump.Writing? ==> out.result.None? && LastIs(out.handed, out.pump.job))
  }

  /** What the pump has written is everything it was handed, but perhaps the last. */
  predicate WireFine(out: Outbound, work: Work) {
    && (out.wire == out.handed
        || (out.handed != [] && out.wire == out.handed[..|out.handed| - 1]
            && (out.pump.Writing? || out.result == Some(false) || Final(work))))
    && (out.pump.Writing? || out.result == Some(false) ==> |out.wire| < |out.handed|)
    && (out.result == Some(true) ==> out.wire == out.handed)
  }

  predicate Frames(out: Outbound, work: Work) {
    && InTurn(out.handed, out.accepted) && GoodbyeLast(out.handed)
    && Current(out, work) && PumpFine(out, work) && WireFine(out, work)
  }

  // ---- calls ------------------------------------------------------------------------------------------

  /** Everything an outcome is about, for one call. */
  datatype View = View(call: Call, accepted: bool, handed: bool, wired: bool, committed: bool, serving: bool)

  predicate Committed(wire: seq<Job>, applied: set<nat>, w: nat) {
    forall i :: 0 <= i < |wire| && JobOf(wire[i], w) && wire[i].commits ==> wire[i].frame in applied
  }

  function ViewOf(s: State, w: nat): View
    requires w < |s.out.calls|
  {
    View(s.out.calls[w], w in s.out.accepted, Handed(s.out.handed, w), Handed(s.out.wire, w),
         Committed(s.out.wire, s.applied, w), Serving(s.work) == Some(w))
  }

  /** What an outcome tells its caller. */
  predicate Explains(v: View, o: Outcome) {
    match o
    case Sent => v.wired && v.committed
    case NotRecorded => v.wired && v.committed
    case TransportFailed => v.handed && !v.wired
    case AmbiguousWrite => v.call.state == Started
    case _ => !v.handed
  }

  predicate CallFine(v: View) {
    && (v.handed ==> v.accepted && v.call.state == Started)
    && (v.wired ==> v.handed)
    && (v.call.result.Some? ==> v.accepted && !v.serving && Explains(v, v.call.result.value))
    && (v.serving ==> v.accepted)
    && match v.call.phase
       case Acquiring(_) => v.call.state == Queued && !v.accepted
       case Offering => v.call.state == Queued && !v.accepted
       case Accepted => v.accepted && v.call.state != Abandoned && (v.call.result.None? ==> v.serving)
       case Returned(o) =>
         && Explains(v, o)
         && (v.accepted ==> v.call.result == Some(o) || (o == ContextEnded && v.call.state == Abandoned) || o == AmbiguousWrite)
  }

  predicate Stages(v: View, progress: Progress) {
    match progress
    case Unclaimed => !v.handed && v.call.state != Started
    case Refusing => !v.handed && v.call.state != Started
    case Forgetting => v.call.state == Abandoned
    case Claiming => !v.handed && v.call.state == Started
    case InPump => v.handed
    case OnWire => v.handed && v.wired && v.committed
  }

  predicate CallsFine(s: State) {
    && (forall w :: 0 <= w < |s.out.calls| ==> CallFine(ViewOf(s, w)))
    && (forall i :: 0 <= i < |s.out.accepted| ==> s.out.accepted[i] < |s.out.calls|)
    && Distinct(s.out.accepted)
    && (Serving(s.work).Some? ==>
          Serving(s.work).value < |s.out.calls| && Stages(ViewOf(s, Serving(s.work).value), ProgressOf(s.work)))
  }

  predicate WriteFine(s: State) {
    Frames(s.out, s.work) && CallsFine(s)
  }

  /** A call's view is unchanged, but that its transition may have been committed since. */
  predicate SameView(v: View, u: View) {
    u.(committed := v.committed) == v && (v.committed ==> u.committed)
  }

  lemma SameViewFine(v: View, u: View)
    requires CallFine(v) && SameView(v, u)
    ensures CallFine(u)
  {
  }

  // ---- steps that leave writes alone --------------------------------------------------------------------

  lemma UntouchedFine(s: State, t: State)
    requires WriteFine(s) && t.out == s.out && s.applied <= t.applied
    requires Serving(t.work) == Serving(s.work)
    requires Serving(t.work).Some? ==> ProgressOf(t.work) == ProgressOf(s.work)
    requires Frames(t.out, t.work)
    ensures WriteFine(t)
  {
    hide Frames, Serving, ProgressOf, Explains;
    forall w | 0 <= w < |t.out.calls| ensures CallFine(ViewOf(t, w)) && SameView(ViewOf(s, w), ViewOf(t, w)) {
      SameViewFine(ViewOf(s, w), ViewOf(t, w));
    }
  }

  // ---- a Write call's own steps ----------------------------------------------------------------------------

  lemma EnterFine(s: State, t: State, c: Call)
    requires WriteFine(s) && t.out == s.out.(calls := s.out.calls + [c]) && t.work == s.work && t.applied == s.applied
    requires c.state == Queued && c.result.None? && (c.phase.Acquiring? || c.phase == Returned(NoBudget))
    ensures WriteFine(t)
  {
    var n := |s.out.calls|;
    NewcomerUnseen(s);
    hide InTurn, GoodbyeLast, Current, PumpFine, WireFine, Handed, Committed, Serving, ProgressOf, Explains;
    assert Frames(t.out, t.work);
    forall w | 0 <= w < n ensures CallFine(ViewOf(t, w)) && ViewOf(t, w) == ViewOf(s, w) {
      assert t.out.calls[w] == s.out.calls[w];
      assert CallFine(ViewOf(s, w));
    }
  }

  lemma NewcomerUnseen(s: State)
    requires WriteFine(s)
    ensures
      var n := |s.out.calls|;
      n !in s.out.accepted && !Handed(s.out.handed, n) && !Handed(s.out.wire, n) && Serving(s.work) != Some(n)
  {
    hide Serving, ProgressOf, Explains, Committed, GoodbyeLast;
  }

  /** Exactly one call's record differs. */
  predicate OnlyCall(s: State, t: State, w: nat, c: Call) {
    && w < |s.out.calls| && t.out == s.out.(calls := s.out.calls[w := c])
    && t.work == s.work && t.applied == s.applied
  }

  lemma CallerFine(s: State, t: State, w: nat, c: Call)
    requires WriteFine(s) && OnlyCall(s, t, w, c)
    requires CallFine(ViewOf(s, w).(call := c))
    requires Serving(s.work) == Some(w) ==> Stages(ViewOf(s, w).(call := c), ProgressOf(s.work))
    ensures WriteFine(t)
  {
    hide InTurn, GoodbyeLast, AwaitsPump, SaidGoodbye, Serving, ProgressOf, Explains, Committed, Handed;
    forall v | 0 <= v < |t.out.calls| ensures CallFine(ViewOf(t, v)) {
      assert CallFine(ViewOf(s, v));
      if v != w { assert ViewOf(t, v) == ViewOf(s, v); } else { assert ViewOf(t, v) == ViewOf(s, v).(call := c); }
    }
    assert ViewOf(t, w) == ViewOf(s, w).(call := c);
    if Serving(s.work).Some? && Serving(s.work).value != w {
      assert ViewOf(t, Serving(s.work).value) == ViewOf(s, Serving(s.work).value);
    }
  }

  /** A caller only records its outcome, or that it gave up; a call it gives up was never begun. */
  predicate Chooses(c: Call, d: Call) {
    && d.result == c.result
    && (c.phase.Accepted? ==>
          || (d.state == c.state && c.result.Some? && d.phase == Returned(c.result.value))
          || (c.state == Queued && d.state == Abandoned && d.phase == Returned(ContextEnded))
          || (d.state == c.state != Queued && d.phase == Returned(AmbiguousWrite)))
    && (!c.phase.Accepted? ==>
          && d.state == c.state && (c.phase.Acquiring? || c.phase.Offering?)
          && (d.phase.Offering? || d.phase == Returned(StreamEnded) || d.phase == Returned(ContextEnded)))
  }

  lemma CallerChoice(s: State, step: CallStep)
    requires s.budget.Sound() && CanCall(s, step) && !step.Enter?
    ensures
      var d := GetCall(DoCall(s, step), step.call);
      OnlyCall(s, DoCall(s, step), step.call, d) && Chooses(GetCall(s, step.call), d)
  {
    hide Reserve, Release, Cancel, Allowance.Sound;
  }

  lemma ChoiceFine(v: View, d: Call, progress: Progress)
    requires CallFine(v) && Chooses(v.call, d) && (v.serving ==> Stages(v, progress))
    ensures CallFine(v.(call := d)) && (v.serving ==> Stages(v.(call := d), progress))
  {
  }

  lemma WaitingCallerFine(s: State, step: CallStep)
    requires s.budget.Sound() && WriteFine(s) && CanCall(s, step) && !step.Enter?
    ensures WriteFine(DoCall(s, step))
  {
    var t := DoCall(s, step);
    CallerChoice(s, step);
    assert CallFine(ViewOf(s, step.call));
    ChoiceFine(ViewOf(s, step.call), t.out.calls[step.call], ProgressOf(s.work));
    hide DoCall, CanCall, WriteFine, Allowance.Sound, Handed, Committed, Serving, ProgressOf, CallFine, Stages, Chooses;
    CallerFine(s, t, step.call, t.out.calls[step.call]);
  }

  lemma WriteCallerFine(s: State, step: CallStep)
    requires s.budget.Sound() && WriteFine(s) && CanCall(s, step)
    ensures WriteFine(DoCall(s, step))
  {
    hide Allowance.Sound, WriteFine;
    if step.Enter? {
      hide Reserve;
      var t := DoCall(s, step);
      EnterFine(s, t, t.out.calls[|s.out.calls|]);
    } else {
      hide DoCall;
      WaitingCallerFine(s, step);
    }
  }

  // ---- the pump ---------------------------------------------------------------------------------------------

  lemma PumpWriteFine(s: State, step: PumpStep)
    requires WriteFine(s) && CanPump(s, step)
    ensures WriteFine(DoPump(s, step))
  {
    var t := DoPump(s, step);
    if step.WriteEnds? {
      WriteEndsFine(s, t, step.ok);
    } else {
      UntouchedOut(s, t);
    }
  }

  /** The writer's state alone may differ. */
  lemma UntouchedOut(s: State, t: State)
    requires WriteFine(s) && t.out.(pump := s.out.pump) == s.out && t.work == s.work && t.applied == s.applied
    requires t.out.pump == s.out.pump || (s.out.pump == WriterIdle && t.out.pump == WriterHalted)
    ensures WriteFine(t)
  {
    hide InTurn, GoodbyeLast, AwaitsPump, SaidGoodbye, Serving, ProgressOf, Explains, Committed, Handed;
    forall w | 0 <= w < |t.out.calls| ensures CallFine(ViewOf(t, w)) && ViewOf(t, w) == ViewOf(s, w) {
      assert CallFine(ViewOf(s, w));
    }
  }

  lemma HandedAppend(jobs: seq<Job>, j: Job, w: nat)
    ensures Handed(jobs + [j], w) <==> Handed(jobs, w) || JobOf(j, w)
  {
    if Handed(jobs, w) {
      var i :| 0 <= i < |jobs| && JobOf(jobs[i], w);
      assert JobOf((jobs + [j])[i], w);
    }
    if JobOf(j, w) { assert JobOf((jobs + [j])[|jobs|], w); }
  }

  /** Only the call in its own turn has a job there. */
  lemma OneJobEach(out: Outbound, i: nat, k: nat, w: nat)
    requires InTurn(out.handed, out.accepted) && Distinct(out.accepted)
    requires i < |out.handed| && k < |out.handed| && JobOf(out.handed[i], w) && JobOf(out.handed[k], w)
    ensures i == k
  {
  }

  function PumpEnds(out: Outbound, ok: bool): Outbound
    requires out.pump.Writing?
  {
    out.(pump := WriterIdle, result := Some(ok), wire := if ok then out.wire + [out.pump.job] else out.wire)
  }

  lemma WriteEndsFrames(out: Outbound, work: Work, ok: bool)
    requires Frames(out, work) && out.pump.Writing?
    ensures Frames(PumpEnds(out, ok), work)
  {
    hide InTurn, GoodbyeLast, AwaitsPump, SaidGoodbye, Serving, Final;
    WireEnds(out.handed, out.wire, out.pump.job);
    EndsFrames(out, PumpEnds(out, ok), work, ok);
  }

  lemma WireEnds(handed: seq<Job>, wire: seq<Job>, j: Job)
    requires LastIs(handed, j) && (wire == handed || wire == handed[..|handed| - 1]) && |wire| < |handed|
    ensures wire == handed[..|handed| - 1] && wire + [j] == handed
  {
  }

  lemma EndsFrames(out: Outbound, e: Outbound, work: Work, ok: bool)
    requires Frames(out, work) && out.pump.Writing? && out.handed != []
    requires e == out.(pump := WriterIdle, result := Some(ok), wire := e.wire)
    requires e.wire == if ok then out.handed else out.handed[..|out.handed| - 1]
    ensures Frames(e, work)
  {
    hide InTurn, GoodbyeLast, AwaitsPump, SaidGoodbye, Serving, Final, LastIs;
  }

  lemma CommittedAppend(wire: seq<Job>, j: Job, applied: set<nat>, w: nat)
    requires !JobOf(j, w)
    ensures Committed(wire + [j], applied, w) == Committed(wire, applied, w)
  {
    if Committed(wire + [j], applied, w) {
      forall i | 0 <= i < |wire| && JobOf(wire[i], w) && wire[i].commits ensures wire[i].frame in applied {
        assert (wire + [j])[i] == wire[i];
      }
    }
  }

  lemma WireView(s: State, t: State, w: nat)
    requires s.out.pump.Writing? && LastIs(s.out.handed, s.out.pump.job) && w < |s.out.calls|
    requires t.out == PumpEnds(s.out, true) && t.work == s.work && t.applied == s.applied
    ensures ViewOf(t, w).(wired := ViewOf(s, w).wired, committed := ViewOf(s, w).committed) == ViewOf(s, w)
    ensures !JobOf(s.out.pump.job, w) ==> ViewOf(t, w) == ViewOf(s, w)
    ensures JobOf(s.out.pump.job, w) ==> Handed(s.out.handed, w)
  {
    HandedAppend(s.out.wire, s.out.pump.job, w);
    if JobOf(s.out.pump.job, w) {
      assert JobOf(s.out.handed[|s.out.handed| - 1], w);
    } else {
      CommittedAppend(s.out.wire, s.out.pump.job, s.applied, w);
    }
  }

  lemma WrittenView(v: View, u: View)
    requires CallFine(v) && u.(wired := v.wired, committed := v.committed) == v && v.handed && v.serving
    ensures CallFine(u) && Stages(u, InPump)
  {
  }

  lemma PumpIs(out: Outbound, work: Work)
    requires Frames(out, work) && out.pump.Writing?
    ensures LastIs(out.handed, out.pump.job)
    ensures out.pump.job.CallJob? ==> work.Awaiting? && Serving(work) == Some(out.pump.job.call) && ProgressOf(work) == InPump
  {
    hide InTurn, GoodbyeLast, SaidGoodbye;
  }

  lemma WriteEndsFine(s: State, t: State, ok: bool)
    requires WriteFine(s) && CanPump(s, WriteEnds(ok)) && t == DoPump(s, WriteEnds(ok))
    ensures WriteFine(t)
  {
    hide CallFine, Stages, Serving, ProgressOf, ViewOf;
    assert t.out == PumpEnds(s.out, ok) && t.work == s.work && t.applied == s.applied;
    hide Frames, DoPump;
    WriteEndsFrames(s.out, s.work, ok);
    PumpIs(s.out, s.work);
    forall w | 0 <= w < |t.out.calls|
      ensures CallFine(ViewOf(t, w))
      ensures Serving(s.work) == Some(w) ==> Stages(ViewOf(t, w), ProgressOf(t.work))
    {
      assert CallFine(ViewOf(s, w));
      WriteEndsView(s, t, w, ok);
    }
  }

  lemma WriteEndsView(s: State, t: State, w: nat, ok: bool)
    requires s.out.pump.Writing? && LastIs(s.out.handed, s.out.pump.job) && w < |s.out.calls|
    requires t.out == PumpEnds(s.out, ok) && t.work == s.work && t.applied == s.applied
    requires CallFine(ViewOf(s, w)) && (Serving(s.work) == Some(w) ==> Stages(ViewOf(s, w), ProgressOf(s.work)))
    requires JobOf(s.out.pump.job, w) ==> Serving(s.work) == Some(w) && ProgressOf(s.work) == InPump
    ensures CallFine(ViewOf(t, w)) && (Serving(s.work) == Some(w) ==> Stages(ViewOf(t, w), ProgressOf(t.work)))
  {
    hide CallFine, Stages, Serving, ProgressOf, Handed, Committed;
    if ok {
      WireView(s, t, w);
      if JobOf(s.out.pump.job, w) { WrittenView(ViewOf(s, w), ViewOf(t, w)); }
    } else {
      assert ViewOf(t, w) == ViewOf(s, w);
    }
  }

  // ---- the coordinator ----------------------------------------------------------------------------------------

  /** The coordinator moves on without giving the pump anything. */
  lemma FramesGo(out: Outbound, work: Work, work': Work)
    requires Frames(out, work) && !AwaitsPump(work) && work != Halted
    requires !AwaitsPump(work') && (Serving(work').None? || Serving(work') == Serving(work))
    requires (Final(work) ==> Final(work')) && (SaidGoodbye(work) ==> SaidGoodbye(work'))
    ensures Frames(out, work')
  {
    hide InTurn, GoodbyeLast, Serving, SaidGoodbye;
  }

  /** The view of one call differs, and perhaps some transition has been committed. */
  predicate OneView(s: State, t: State, w: nat) {
    && |t.out.calls| == |s.out.calls| && w < |s.out.calls|
    && (forall v :: 0 <= v < |s.out.calls| && v != w ==> SameView(ViewOf(s, v), ViewOf(t, v)))
  }

  lemma OneViewFine(s: State, t: State, w: nat)
    requires WriteFine(s) && OneView(s, t, w) && CallFine(ViewOf(t, w))
    requires (forall i :: 0 <= i < |t.out.accepted| ==> t.out.accepted[i] < |t.out.calls|) && Distinct(t.out.accepted)
    requires Serving(t.work).Some? ==> Serving(t.work).value == w && Stages(ViewOf(t, w), ProgressOf(t.work))
    requires Frames(t.out, t.work)
    ensures WriteFine(t)
  {
    hide Frames, Serving, ProgressOf, Explains, Committed, Handed, CallFine, Stages, ViewOf;
    forall v | 0 <= v < |t.out.calls| ensures CallFine(ViewOf(t, v)) {
      if v != w {
        assert CallFine(ViewOf(s, v));
        SameViewFine(ViewOf(s, v), ViewOf(t, v));
      }
    }
  }

  /** The coordinator is done with its call. */
  lemma SettledFine(s: State, t: State, w: nat, c: Call)
    requires WriteFine(s) && Serving(s.work) == Some(w) && Serving(t.work).None? && w < |s.out.calls|
    requires t.out.calls == s.out.calls[w := c] && t.applied == s.applied
    requires t.out.accepted == s.out.accepted && t.out.handed == s.out.handed && t.out.wire == s.out.wire
    requires CallFine(ViewOf(s, w).(call := c, serving := false))
    requires Frames(t.out, t.work)
    ensures WriteFine(t)
  {
    assert ViewOf(t, w) == ViewOf(s, w).(call := c, serving := false);
    hide Frames, ProgressOf, Explains, Committed, Handed, CallFine, Stages;
    OneViewFine(s, t, w);
  }

  /** The result channel of the call being processed is still empty, so its outcome is the one reported. */
  lemma ReportIs(s: State, o: Outcome)
    requires WriteFine(s) && Serving(s.work).Some?
    ensures
      var w := Serving(s.work).value;
      && w < |s.out.calls| && s.out.calls[w].result.None?
      && Report(s, w, o) == SetCall(s, w, s.out.calls[w].(result := Some(o)))
      && CallFine(ViewOf(s, w)) && ViewOf(s, w).serving
      && Stages(ViewOf(s, w), ProgressOf(s.work))
  {
    assert CallFine(ViewOf(s, Serving(s.work).value));
  }

  lemma ReportedFine(s: State, o: Outcome, last: bool, stopping: bool)
    requires WriteFine(s) && Serving(s.work).Some? && !AwaitsPump(s.work)
    requires Explains(ViewOf(s, Serving(s.work).value), o)
    requires Final(s.work) ==> last
    ensures WriteFine(Report(s, Serving(s.work).value, o).(work := Releasing(last), stopping := stopping))
  {
    var w := Serving(s.work).value;
    ReportIs(s, o);
    var t := Report(s, w, o).(work := Releasing(last), stopping := stopping);
    assert !SaidGoodbye(s.work);
    FramesGo(s.out, s.work, t.work);
    assert Frames(t.out, t.work) by {
      hide InTurn, GoodbyeLast, AwaitsPump, SaidGoodbye, Serving;
    }
    hide Frames, Handed, Committed, SaidGoodbye;
    SettledFine(s, t, w, s.out.calls[w].(result := Some(o)));
  }

  lemma ForgottenFine(s: State)
    requires WriteFine(s) && Serving(s.work).Some? && ProgressOf(s.work) == Forgetting
    ensures WriteFine(s.(work := Releasing(false)))
  {
    var w := Serving(s.work).value;
    assert CallFine(ViewOf(s, w));
    FramesGo(s.out, s.work, Releasing(false));
    hide Frames, Handed, Committed;
    SettledFine(s, s.(work := Releasing(false)), w, s.out.calls[w]);
  }

  lemma RecordedElsewhere(s: State, next: Next)
    requires WriteFine(s) && NextOf(s.work) == Some(next)
    requires !next.RefuseNext? && !next.SentNext? && !next.ForgetNext?
    ensures WriteFine(Recorded(s, next))
  {
    hide Frames, CallsFine;
    var t := Recorded(s, next);
    FramesGo(s.out, s.work, t.work);
    UntouchedFine(s, t);
  }

  lemma RecordedFine(s: State, next: Next)
    requires WriteFine(s) && NextOf(s.work) == Some(next)
    ensures WriteFine(Recorded(s, next))
  {
    match next {
      case RefuseNext(w) => ReportedFine(s, RefusedBySession, false, s.stopping);
      case SentNext(w) => ReportedFine(s, Sent, false, s.stopping);
      case ForgetNext(w) => ForgottenFine(s);
      case _ => RecordedElsewhere(s, next);
    }
  }

  lemma NotSubmittedElsewhere(s: State, next: Next)
    requires WriteFine(s) && NextOf(s.work) == Some(next)
    requires !next.RefuseNext? && !next.SentNext? && !next.ForgetNext? && !next.SentRawNext?
    ensures WriteFine(NotSubmitted(s, next))
  {
    hide Frames, CallsFine;
    var t := NotSubmitted(s, next);
    FramesGo(s.out, s.work, t.work);
    UntouchedFine(s, t);
  }

  lemma NotSubmittedFine(s: State, next: Next)
    requires WriteFine(s) && NextOf(s.work) == Some(next)
    ensures WriteFine(NotSubmitted(s, next))
  {
    match next {
      case RefuseNext(w) => ReportedFine(s, RefusedBySession, false, s.stopping);
      case SentRawNext(w, _, _) => ReportedFine(s, if s.stopping then Sent else NotRecorded, !s.stopping, true);
      case SentNext(w) => ReportedFine(s, if s.stopping then Sent else NotRecorded, !s.stopping, true);
      case ForgetNext(w) => ForgottenFine(s);
      case _ => NotSubmittedElsewhere(s, next);
    }
  }

  /** Waiting to submit, and submitting, change nothing but the records. */
  lemma ObserveWaits(s: State, step: ObserveStep)
    requires s.budget.Sound() && CanObserve(s, step)
    ensures
      var t := DoObserve(s, step);
      && NextOf(s.work) == Some(s.work.next)
      && ((step.Ask? && !s.cfg.sink) ==> t == Recorded(s, s.work.next))
      && (step.Push? ==> t == Recorded(s.(rec := t.rec), s.work.next))
      && (step.Resume? ==> t == NotSubmitted(s, s.work.next))
      && (!(step.Ask? && !s.cfg.sink) && !step.Push? && !step.Resume? ==>
            t.out == s.out && t.applied == s.applied && NextOf(t.work) == NextOf(s.work) && NextOf(t.work).Some?)
  {
    hide Reserve, Release, Cancel, Allowance.Sound, Report;
    RecordedGoesOn(s, s.work.next);
    if step.Push? { RecordedGoesOn(s.(rec := s.rec.(channel := s.rec.channel + [s.work.record])), s.work.next); }
    if step.Push? || (step.Ask? && !s.cfg.sink) { hide Recorded, NotSubmitted; }
    hide GoesOn;
  }

  lemma ObserveFine(s: State, step: ObserveStep)
    requires s.budget.Sound() && WriteFine(s) && CanObserve(s, step)
    ensures WriteFine(DoObserve(s, step))
  {
    var t := DoObserve(s, step);
    ObserveWaits(s, step);
    hide DoObserve, CanObserve, Recorded, NotSubmitted, Frames, CallsFine, Allowance.Sound;
    if step.Ask? && !s.cfg.sink {
      RecordedFine(s, s.work.next);
    } else if step.Push? {
      UntouchedFine(s, s.(rec := t.rec));
      RecordedFine(s.(rec := t.rec), s.work.next);
    } else if step.Resume? {
      NotSubmittedFine(s, s.work.next);
    } else {
      FramesGo(s.out, s.work, t.work);
      UntouchedFine(s, t);
    }
  }

  lemma AcceptFrames(out: Outbound, calls: seq<Call>, w: nat)
    requires Frames(out, Select)
    ensures Frames(out.(calls := calls, accepted := out.accepted + [w]), Encoding(w))
  {
  }

  lemma AcceptFine(s: State, w: nat)
    requires WriteFine(s) && CanSelect(s, AcceptCall(w))
    ensures WriteFine(DoSelect(s, AcceptCall(w)))
  {
    var t := DoSelect(s, AcceptCall(w));
    var c := s.out.calls[w];
    assert CallFine(ViewOf(s, w));
    AcceptFrames(s.out, t.out.calls, w);
    assert t.out == s.out.(calls := s.out.calls[w := c.(phase := Accepted)], accepted := s.out.accepted + [w]);
    assert ViewOf(t, w) == ViewOf(s, w).(call := c.(phase := Accepted), accepted := true, serving := true);
    forall v | 0 <= v < |s.out.calls| && v != w ensures SameView(ViewOf(s, v), ViewOf(t, v)) {
      assert v in t.out.accepted <==> v in s.out.accepted;
    }
    hide Frames, Handed, Committed;
    OneViewFine(s, t, w);
  }

  lemma SelectFine(s: State, step: SelectStep)
    requires WriteFine(s) && CanSelect(s, step)
    ensures WriteFine(DoSelect(s, step))
  {
    if step.AcceptCall? {
      AcceptFine(s, step.call);
    } else {
      var t := DoSelect(s, step);
      hide Frames, CallsFine, SetCall;
      FramesGo(s.out, s.work, t.work);
      UntouchedFine(s, t);
    }
  }

  lemma ArrivalLeavesOut(s: State, step: ArrivalStep)
    requires s.budget.Sound() && CanArrival(s, step)
    ensures
      var t := DoArrival(s, step);
      && t.out == s.out && s.applied <= t.applied
      && Serving(s.work).None? && Serving(t.work).None?
      && !AwaitsPump(s.work) && !AwaitsPump(t.work) && !SaidGoodbye(s.work) && !Final(s.work)
  {
    hide Reserve, Release, Cancel, Allowance.Sound;
  }

  lemma ArrivalFine(s: State, step: ArrivalStep)
    requires s.budget.Sound() && WriteFine(s) && CanArrival(s, step)
    ensures WriteFine(DoArrival(s, step))
  {
    ArrivalLeavesOut(s, step);
    var t := DoArrival(s, step);
    assert s.work != Halted;
    hide DoArrival, CanArrival, Frames, CallsFine, Serving, AwaitsPump, SaidGoodbye, Final;
    FramesGo(s.out, s.work, t.work);
    UntouchedFine(s, t);
  }

  // ---- a write ---------------------------------------------------------------------------------------------------

  /** The coordinator makes progress with its call, perhaps claiming it. */
  lemma ProgressFine(s: State, t: State, w: nat, c: Call)
    requires WriteFine(s) && Serving(s.work) == Some(w) && Serving(t.work) == Some(w) && w < |s.out.calls|
    requires t.out == s.out.(calls := s.out.calls[w := c]) && t.applied == s.applied
    requires CallFine(ViewOf(s, w).(call := c)) && Stages(ViewOf(s, w).(call := c), ProgressOf(t.work))
    requires !AwaitsPump(s.work) && !AwaitsPump(t.work) && s.work != Halted
    ensures WriteFine(t)
  {
    assert ViewOf(t, w) == ViewOf(s, w).(call := c);
    assert !SaidGoodbye(s.work);
    FramesGo(s.out, s.work, t.work);
    assert Frames(t.out, t.work) by {
      hide InTurn, GoodbyeLast, AwaitsPump, SaidGoodbye, Serving;
    }
    hide Frames, ProgressOf, Explains, Committed, Handed, CallFine, Stages;
    OneViewFine(s, t, w);
  }

  lemma EncodeIs(s: State, step: WriteStep)
    requires s.budget.Sound() && CanWrite(s, step) && (step.Encode? || step.Begin?)
    requires s.work.call < |s.out.calls|
    ensures
      var t := DoWrite(s, step);
      var w := s.work.call;
      var c := s.out.calls[w];
      var d := if step.Begin? && c.state == Queued then c.(state := Started) else c;
      && t.out == s.out.(calls := s.out.calls[w := d]) && t.applied == s.applied
      && Serving(s.work) == Serving(t.work) == Some(w) && !AwaitsPump(s.work) && !AwaitsPump(t.work) && s.work != Halted
      && ProgressOf(s.work) == Unclaimed
      && (step.Encode? ==> ProgressOf(t.work) == Refusing || ProgressOf(t.work) == Unclaimed)
      && (step.Begin? ==> ProgressOf(t.work) == if c.state == Queued then Claiming else Forgetting)
  {
    hide Allowance.Sound;
    assert s.out.calls[s.work.call := s.out.calls[s.work.call]] == s.out.calls;
  }

  lemma EncodeFine(s: State, step: WriteStep)
    requires s.budget.Sound() && WriteFine(s) && CanWrite(s, step) && (step.Encode? || step.Begin?)
    ensures WriteFine(DoWrite(s, step))
  {
    ReportIs(s, Sent);
    EncodeIs(s, step);
    hide DoWrite, CanWrite, Allowance.Sound, Frames, CallsFine, Handed, Committed, Serving, ProgressOf, AwaitsPump;
    ProgressFine(s, DoWrite(s, step), s.work.call, DoWrite(s, step).out.calls[s.work.call]);
  }

  function HandsOver(out: Outbound, j: Job): Outbound {
    out.(pump := Writing(j), handed := out.handed + [j])
  }

  lemma TurnsAppend(jobs: seq<Job>, accepted: seq<nat>, j: Job)
    requires InTurn(jobs, accepted) && (forall i :: 0 <= i < |jobs| ==> jobs[i].CallJob?)
    requires j.CallJob? ==> accepted != [] && j.turn == |accepted| - 1 && accepted[j.turn] == j.call && !Handed(jobs, j.call)
    ensures InTurn(jobs + [j], accepted) && GoodbyeLast(jobs + [j])
  {
    forall i | 0 <= i < |jobs| && j.CallJob? ensures jobs[i].turn < j.turn {
      assert !JobOf(jobs[i], j.call);
    }
  }

  /** No goodbye was said, so nothing handed over is one. */
  lemma OnlyCalls(out: Outbound, work: Work)
    requires Frames(out, work) && !SaidGoodbye(work)
    ensures forall i :: 0 <= i < |out.handed| ==> out.handed[i].CallJob?
  {
    hide SaidGoodbye, Serving, InTurn, WireFine, PumpFine;
  }

  lemma HandFrames(out: Outbound, w: nat, frame: nat, commits: bool)
    requires Frames(out, Handing(w, frame, commits)) && out.pump == WriterIdle && out.accepted != []
    requires !Handed(out.handed, w)
    ensures Frames(HandsOver(out, CallJob(w, |out.accepted| - 1, frame, commits)), Awaiting(w, frame, commits))
  {
    OnlyCalls(out, Handing(w, frame, commits));
    TurnsAppend(out.handed, out.accepted, CallJob(w, |out.accepted| - 1, frame, commits));
    hide Handed, InTurn, GoodbyeLast;
  }

  lemma HandIs(s: State)
    requires s.budget.Sound() && CanWrite(s, Hand)
    ensures
      var t := DoWrite(s, Hand);
      && s.out.pump == WriterIdle && s.work.Handing?
      && (s.out.accepted != [] ==>
            t.out == HandsOver(s.out, CallJob(s.work.call, |s.out.accepted| - 1, s.work.frame, s.work.commits)))
      && t.work == Awaiting(s.work.call, s.work.frame, s.work.commits) && t.applied == s.applied
  {
    hide Allowance.Sound;
  }

  /** Handing a job over changes the view of its own call, and of no other. */
  lemma HandViews(s: State, t: State, j: Job, v: nat)
    requires t.out == HandsOver(s.out, j) && t.applied == s.applied && Serving(t.work) == Serving(s.work)
    requires v < |s.out.calls|
    ensures ViewOf(t, v) == if JobOf(j, v) then ViewOf(s, v).(handed := true) else ViewOf(s, v)
  {
    hide Handed, Committed, Serving;
    HandedAppend(s.out.handed, j, v);
  }

  lemma HandedView(v: View)
    requires CallFine(v) && Stages(v, Claiming) && v.serving && v.call.result.None?
    ensures CallFine(v.(handed := true)) && Stages(v.(handed := true), InPump)
  {
  }

  lemma HandedFine(s: State, t: State, j: Job, w: nat)
    requires WriteFine(s) && Frames(t.out, t.work) && t.out == HandsOver(s.out, j) && t.applied == s.applied
    requires Serving(s.work) == Serving(t.work) == Some(w) && JobOf(j, w) && w < |s.out.calls|
    requires s.out.calls[w].result.None? && ProgressOf(s.work) == Claiming && ProgressOf(t.work) == InPump
    ensures WriteFine(t)
  {
    hide Frames, CallFine, Stages, Serving, ProgressOf, ViewOf;
    forall v | 0 <= v < |s.out.calls|
      ensures ViewOf(t, v) == if v == w then ViewOf(s, v).(handed := true) else ViewOf(s, v)
    {
      HandViews(s, t, j, v);
    }
    assert CallFine(ViewOf(s, w)) && ViewOf(s, w).serving && ViewOf(s, w).call == s.out.calls[w] by { ViewParts(s, w); }
    HandedView(ViewOf(s, w));
    forall v | 0 <= v < |s.out.calls| && v != w ensures SameView(ViewOf(s, v), ViewOf(t, v)) {}
    OneViewFine(s, t, w);
  }

  lemma ViewParts(s: State, w: nat)
    requires w < |s.out.calls|
    ensures ViewOf(s, w).serving == (Serving(s.work) == Some(w)) && ViewOf(s, w).call == s.out.calls[w]
  {
  }

  lemma HandFine(s: State)
    requires s.budget.Sound() && WriteFine(s) && CanWrite(s, Hand)
    ensures WriteFine(DoWrite(s, Hand))
  {
    hide DoWrite, Allowance.Sound, CallsFine, CallFine, Frames, Handed, Committed, Report;
    HandIs(s);
    ReportIs(s, Sent);
    HandFrames(s.out, s.work.call, s.work.frame, s.work.commits);
    HandedFine(s, DoWrite(s, Hand), DoWrite(s, Hand).out.pump.job, s.work.call);
  }

  lemma GoodbyeFrames(out: Outbound, frame: nat)
    requires Frames(out, GoodbyeHanding(frame)) && out.pump == WriterIdle
    ensures Frames(HandsOver(out, GoodbyeJob(frame)), GoodbyeAwaiting(frame))
  {
    OnlyCalls(out, GoodbyeHanding(frame));
    TurnsAppend(out.handed, out.accepted, GoodbyeJob(frame));
    hide Handed, InTurn, GoodbyeLast, JobOf;
    assert out.result.None? && out.wire == out.handed;
    assert LastIs(out.handed + [GoodbyeJob(frame)], GoodbyeJob(frame));
  }

  lemma SameViewsFine(s: State, t: State)
    requires WriteFine(s) && Frames(t.out, t.work) && Serving(t.work).None?
    requires t.out.calls == s.out.calls && t.out.accepted == s.out.accepted
    requires forall v :: 0 <= v < |s.out.calls| ==> ViewOf(t, v) == ViewOf(s, v)
    ensures WriteFine(t)
  {
    hide Frames, ViewOf, CallFine, Serving;
    forall v | 0 <= v < |t.out.calls| ensures CallFine(ViewOf(t, v)) { assert CallFine(ViewOf(s, v)); }
  }

  lemma GoodbyeIs(s: State)
    requires s.budget.Sound() && CanWrite(s, HandGoodbye)
    ensures
      var t := DoWrite(s, HandGoodbye);
      && s.out.pump == WriterIdle && s.work.GoodbyeHanding?
      && t.out == HandsOver(s.out, GoodbyeJob(s.work.frame))
      && t.work == GoodbyeAwaiting(s.work.frame) && t.applied == s.applied
  {
    hide Allowance.Sound;
  }

  lemma HandGoodbyeFine(s: State)
    requires s.budget.Sound() && WriteFine(s) && CanWrite(s, HandGoodbye)
    ensures WriteFine(DoWrite(s, HandGoodbye))
  {
    hide Allowance.Sound, DoWrite, CallsFine, ViewOf, Frames;
    GoodbyeIs(s);
    var t := DoWrite(s, HandGoodbye);
    GoodbyeFrames(s.out, s.work.frame);
    forall v | 0 <= v < |s.out.calls| ensures ViewOf(t, v) == ViewOf(s, v) {
      HandViews(s, t, GoodbyeJob(s.work.frame), v);
    }
    SameViewsFine(s, t);
  }

  /** Reading the pump's answer. */
  lemma AnswerFrames(out: Outbound, work: Work, work': Work)
    requires Frames(out, work) && AwaitsPump(work) && out.result.Some?
    requires !AwaitsPump(work') && (Serving(work').None? || Serving(work') == Serving(work))
    requires work.GoodbyeAwaiting? ==> SaidGoodbye(work')
    requires !out.result.value ==> Final(work')
    ensures Frames(out.(result := None), work')
  {
    hide InTurn, GoodbyeLast, Serving;
  }

  lemma WrittenIs(s: State, step: WriteStep)
    requires s.budget.Sound() && CanWrite(s, step) && step.ReadResult? && s.out.result == Some(true)
    ensures
      var t := DoWrite(s, step);
      && t.out == s.out.(result := None)
      && t.applied == (if s.work.commits then s.applied + {s.work.frame} else s.applied)
      && Serving(t.work) == Serving(s.work) == Some(s.work.call) && ProgressOf(t.work) == OnWire
      && !AwaitsPump(t.work) && AwaitsPump(s.work) && !s.work.GoodbyeAwaiting?
  {
    hide Allowance.Sound;
  }

  /** The call's one job is the last, and it is on the wire with its transition committed. */
  lemma LastWritten(out: Outbound, applied: set<nat>, j: Job, w: nat)
    requires InTurn(out.handed, out.accepted) && Distinct(out.accepted) && LastIs(out.handed, j) && JobOf(j, w)
    requires out.wire == out.handed && (j.commits ==> j.frame in applied)
    ensures Handed(out.wire, w) && Committed(out.wire, applied, w)
  {
    var n := |out.handed| - 1;
    assert JobOf(out.wire[n], w);
    forall i | 0 <= i < |out.wire| && JobOf(out.wire[i], w) ensures i == n { OneJobEach(out, i, n, w); }
  }

  lemma WrittenFine(s: State, step: WriteStep)
    requires s.budget.Sound() && WriteFine(s) && CanWrite(s, step) && step.ReadResult? && s.out.result == Some(true)
    ensures WriteFine(DoWrite(s, step))
  {
    var w := s.work.call;
    var t := DoWrite(s, step);
    WrittenIs(s, step);
    ReportIs(s, Sent);
    hide DoWrite, Allowance.Sound;
    AnswerFrames(s.out, s.work, t.work);
    LastWritten(s.out, t.applied, s.out.handed[|s.out.handed| - 1], w);
    assert ViewOf(t, w) == ViewOf(s, w).(wired := true, committed := true);
    hide Frames, CallsFine, CallFine, Serving, ProgressOf;
    forall v | 0 <= v < |s.out.calls| && v != w ensures SameView(ViewOf(s, v), ViewOf(t, v)) {}
    hide Committed, Handed;
    OneViewFine(s, t, w) by { assert CallFine(ViewOf(s, w)); }
  }

  lemma NotWritten(out: Outbound, w: nat)
    requires InTurn(out.handed, out.accepted) && Distinct(out.accepted)
    requires out.handed != [] && out.wire == out.handed[..|out.handed| - 1] && JobOf(out.handed[|out.handed| - 1], w)
    ensures !Handed(out.wire, w)
  {
    var n := |out.handed| - 1;
    forall i | 0 <= i < |out.wire| ensures !JobOf(out.wire[i], w) {}
  }

  lemma FailedIs(s: State, step: WriteStep)
    requires s.budget.Sound() && WriteFine(s) && CanWrite(s, step) && step.ReadResult? && s.out.result == Some(false)
    ensures
      var t := DoWrite(s, step);
      var w := s.work.call;
      && w < |s.out.calls| && CallFine(ViewOf(s, w)) && Stages(ViewOf(s, w), InPump)
      && t.work == Releasing(true) && t.applied == s.applied
      && t.out == s.out.(result := None, calls := s.out.calls[w := s.out.calls[w].(result := Some(TransportFailed))])
  {
    ReportIs(s, TransportFailed);
    hide Frames, CallsFine, Allowance.Sound;
  }

  lemma FailedFine(s: State, step: WriteStep)
    requires s.budget.Sound() && WriteFine(s) && CanWrite(s, step) && step.ReadResult? && s.out.result == Some(false)
    ensures WriteFine(DoWrite(s, step))
  {
    FailedIs(s, step);
    var w := s.work.call;
    var t := DoWrite(s, step);
    hide DoWrite, Allowance.Sound;
    NotWritten(s.out, w);
    AnswerFrames(s.out, s.work, t.work);
    assert Frames(t.out, t.work) by {
      hide InTurn, GoodbyeLast, AwaitsPump, SaidGoodbye, Serving, CallsFine;
    }
    hide Frames, Committed, Handed;
    SettledFine(s, t, w, t.out.calls[w]);
  }

  lemma StoppedFine(s: State)
    requires s.budget.Sound() && WriteFine(s) && CanWrite(s, HandStopped)
    ensures WriteFine(DoWrite(s, HandStopped))
  {
    ReportIs(s, StreamEnded);
    ReportedFine(s, StreamEnded, true, s.stopping);
  }

  lemma GoodbyeAnswered(s: State, step: WriteStep)
    requires s.budget.Sound() && WriteFine(s) && CanWrite(s, step) && step.GoodbyeResult?
    ensures WriteFine(DoWrite(s, step))
  {
    var t := DoWrite(s, step);
    AnswerFrames(s.out, s.work, t.work);
    hide CallsFine;
    assert t.out == s.out.(result := None) && t.applied == s.applied && Serving(t.work).None? && Serving(s.work).None?;
    hide Frames, DoWrite, Allowance.Sound, Committed, Handed, CallsFine, Serving;
    SameViewsFine(s, t);
  }

  lemma LeavingFrames(s: State, step: WriteStep)
    requires s.budget.Sound() && WriteFine(s) && CanWrite(s, step)
    requires step.ReleaseCall? || step.BuildGoodbye? || step.GoodbyeGivenUp?
    ensures
      var t := DoWrite(s, step);
      && Frames(t.out, t.work) && t.out == s.out && t.applied == s.applied
      && Serving(t.work).None? && Serving(s.work).None?
  {
    hide Release, CallsFine, InTurn, GoodbyeLast, Allowance.Sound;
  }

  lemma GoodbyeFine(s: State, step: WriteStep)
    requires s.budget.Sound() && WriteFine(s) && CanWrite(s, step)
    requires step.ReleaseCall? || step.BuildGoodbye? || step.GoodbyeResult? || step.GoodbyeGivenUp?
    ensures WriteFine(DoWrite(s, step))
  {
    if step.GoodbyeResult? {
      GoodbyeAnswered(s, step);
    } else {
      LeavingFrames(s, step);
      hide DoWrite, CallsFine, Frames;
      UntouchedFine(s, DoWrite(s, step));
    }
  }

  lemma WriteStepFine(s: State, step: WriteStep)
    requires s.budget.Sound() && WriteFine(s) && CanWrite(s, step)
    ensures WriteFine(DoWrite(s, step))
  {
    hide DoWrite, WriteFine, Allowance.Sound;
    match step {
      case Encode(_) => EncodeFine(s, step);
      case Begin(_) => EncodeFine(s, step);
      case Hand => HandFine(s);
      case HandStopped => StoppedFine(s);
      case ReadResult(_, _) => if s.out.result.value { WrittenFine(s, step); } else { FailedFine(s, step); }
      case HandGoodbye => HandGoodbyeFine(s);
      case _ => GoodbyeFine(s, step);
    }
  }

  // ---- every run ---------------------------------------------------------------------------------------------------

  lemma OtherFine(s: State, t: State)
    requires WriteFine(s) && t.out == s.out && t.work == s.work && t.applied == s.applied
    ensures WriteFine(t)
  {
    hide Frames, CallsFine;
    UntouchedFine(s, t);
  }

  lemma StepWrites(s: State, step: Step)
    requires s.budget.Sound() && WriteFine(s) && Can(s, step)
    ensures WriteFine(Do(s, step))
  {
    hide WriteFine, Allowance.Sound, Release, Close;
    match step {
      case OfCall(c) => WriteCallerFine(s, c);
      case OfRead(r) => OtherFine(s, DoRead(s, r));
      case OfPump(p) => PumpWriteFine(s, p);
      case OfSelect(c) => SelectFine(s, c);
      case OfObserve(o) => ObserveFine(s, o);
      case OfArrival(a) => ArrivalFine(s, a);
      case OfWrite(w) => WriteStepFine(s, w);
      case OfDispatch(d) => OtherFine(s, DoDispatch(s, d));
      case OfEnd(e) => OtherFine(s, DoEnd(s, e));
    }
  }

  lemma {:induction false} RunWrites(s: State, steps: seq<Step>)
    requires s.budget.Sound() && WriteFine(s) && CanAll(s, steps)
    ensures WriteFine(DoAll(s, steps))
    decreases |steps|
  {
    if steps != [] {
      StepWrites(s, steps[0]);
      RunWrites(Do(s, steps[0]), steps[1..]);
    }
  }

  lemma InitWrites(cfg: Config)
    ensures WriteFine(Init(cfg))
  {
  }

  // ---- what it comes to -----------------------------------------------------------------------------------------------

  /** Frames are on the wire in acceptance order, one at most for each call, and a goodbye is the last. */
  lemma WireInOrder(cfg: Config, steps: seq<Step>, i: nat, k: nat)
    requires CanAll(Init(cfg), steps) && i < k < |DoAll(Init(cfg), steps).out.wire|
    ensures
      var out := DoAll(Init(cfg), steps).out;
      && out.wire[i].CallJob?
      && (out.wire[k].CallJob? ==>
            && out.wire[i].turn < out.wire[k].turn < |out.accepted|
            && out.accepted[out.wire[i].turn] == out.wire[i].call
            && out.accepted[out.wire[k].turn] == out.wire[k].call
            && out.wire[i].call != out.wire[k].call)
  {
    hide CanAll, DoAll, CallFine, Stages, Allowance.Sound, WriteFine, Init;
    RunFromStart(cfg, steps);
    FrameOrder(DoAll(Init(cfg), steps), i, k);
  }

  lemma RunFromStart(cfg: Config, steps: seq<Step>)
    requires CanAll(Init(cfg), steps)
    ensures WriteFine(DoAll(Init(cfg), steps))
  {
    InitWrites(cfg);
    hide WriteFine, Init, CanAll, DoAll;
    RunWrites(Init(cfg), steps);
  }

  lemma FrameOrder(s: State, i: nat, k: nat)
    requires WriteFine(s) && i < k < |s.out.wire|
    ensures s.out.wire[i].CallJob?
    ensures s.out.wire[k].CallJob? ==>
      && s.out.wire[i].turn < s.out.wire[k].turn < |s.out.accepted|
      && s.out.accepted[s.out.wire[i].turn] == s.out.wire[i].call
      && s.out.accepted[s.out.wire[k].turn] == s.out.wire[k].call
      && s.out.wire[i].call != s.out.wire[k].call
  {
    hide CallFine, Stages;
    assert s.out.wire[i] == s.out.handed[i] && s.out.wire[k] == s.out.handed[k];
  }

  /** What a call was told is what happened to its frame. */
  lemma OutcomeTrue(s: State, w: nat)
    requires WriteFine(s) && w < |s.out.calls| && s.out.calls[w].phase.Returned?
    ensures
      match s.out.calls[w].phase.outcome
      case Sent => Handed(s.out.wire, w) && Committed(s.out.wire, s.applied, w)
      case NotRecorded => Handed(s.out.wire, w) && Committed(s.out.wire, s.applied, w)
      case TransportFailed => Handed(s.out.handed, w) && !Handed(s.out.wire, w)
      case AmbiguousWrite => s.out.calls[w].state == Started
      case _ => !Handed(s.out.handed, w)
  {
    assert CallFine(ViewOf(s, w));
  }

  /** A call the coordinator accepted is answered, or is the one it is working on. */
  lemma NoWriteForgotten(cfg: Config, steps: seq<Step>, w: nat)
    requires CanAll(Init(cfg), steps)
    requires w < |DoAll(Init(cfg), steps).out.calls| && DoAll(Init(cfg), steps).out.calls[w].phase.Accepted?
    ensures DoAll(Init(cfg), steps).out.calls[w].result.Some? || Serving(DoAll(Init(cfg), steps).work) == Some(w)
  {
    hide CanAll, DoAll, Init, Frames, Allowance.Sound;
    RunFromStart(cfg, steps);
    assert CallFine(ViewOf(DoAll(Init(cfg), steps), w));
  }

  /** An outcome, once returned, is the call's only outcome. */
  lemma ReturnedStays(s: State, step: Step, w: nat)
    requires s.budget.Sound() && Can(s, step) && w < |s.out.calls| && s.out.calls[w].phase.Returned?
    ensures w < |Do(s, step).out.calls| && Do(s, step).out.calls[w].phase == s.out.calls[w].phase
  {
    hide Reserve, Release, Cancel, Close, Allowance.Sound;
    match step {
      case OfCall(c) => if !c.Enter? { CallerChoice(s, c); hide DoCall; }
      case OfObserve(o) => ObserveKeepsPhases(s, o, w); hide DoObserve;
      case OfArrival(a) => ArrivalLeavesOut(s, a); hide DoArrival;
      case OfWrite(d) => if !d.ReleaseCall? { WriteLeavesAll(s, d); hide DoWrite; }
      case _ =>
    }
  }

  lemma ObserveKeepsPhases(s: State, step: ObserveStep, w: nat)
    requires s.budget.Sound() && CanObserve(s, step) && w < |s.out.calls|
    ensures w < |DoObserve(s, step).out.calls| && DoObserve(s, step).out.calls[w].phase == s.out.calls[w].phase
  {
    ObserveWaits(s, step);
    RecordedContinues(s, s.work.next);
    NotSubmittedContinues(s, s.work.next);
    RecordedContinues(s.(rec := DoObserve(s, step).rec), s.work.next);
    hide DoObserve, Recorded, NotSubmitted;
  }

  lemma {:induction false} ReturnedForever(s: State, steps: seq<Step>, w: nat)
    requires s.budget.Sound() && CanAll(s, steps) && w < |s.out.calls| && s.out.calls[w].phase.Returned?
    ensures w < |DoAll(s, steps).out.calls| && DoAll(s, steps).out.calls[w].phase == s.out.calls[w].phase
    decreases |steps|
  {
    if steps != [] {
      ReturnedStays(s, steps[0], w);
      ReturnedForever(Do(s, steps[0]), steps[1..], w);
    }
  }

  /** A goodbye given up because the stream is stopping is not on the wire: one that was written whole is reported as said. */
  lemma GivenUpUnsaid(s: State)
    requires WriteFine(s) && s.work.GoodbyeAwaiting? && CanWrite(s, GoodbyeGivenUp(false))
    ensures s.out.handed != [] && s.out.wire == s.out.handed[..|s.out.handed| - 1]
    ensures s.out.handed[|s.out.handed| - 1] == GoodbyeJob(s.work.frame)
  {
    hide CallsFine, InTurn, GoodbyeLast;
  }
}
