/**
 Which frame is which (stream_runtime.go). Frames are numbered by one counter, both ways:
 no two share a number, and the transitions the session commits are exactly those it
 proposed for the packets decoded and for the frames written.
 */
module StreamFrames {
  import opened Wrappers
  import opened Budget
  import opened Stream
  import opened StreamBalance
  import opened StreamConservation
  import opened StreamSafety
  import opened StreamSafe
  import opened StreamInbound
  import opened StreamDrops
  import opened StreamWrites
  import opened StreamAnswers

  // ---- numbers ------------------------------------------------------------------------------

  /** A frame built, or read and not yet decoded, that the pump has not been given. */
  function InHand(work: Work): Option<nat> {
    match work
    case Beginning(_, f, _) => Some(f)
    case Handing(_, f, _) => Some(f)
    case GoodbyeHanding(f) => Some(f)
    case _ => Undecoded(work)
  }

  predicate Numbers(n: nat, decoded: seq<Arrival>, handed: seq<Job>) {
    && (forall i :: 0 <= i < |decoded| ==> 1 <= decoded[i].frame <= n)
    && (forall i :: 0 <= i < |handed| ==> 1 <= handed[i].frame <= n)
  }

  predicate Apart(decoded: seq<Arrival>, handed: seq<Job>) {
    forall i, k :: 0 <= i < |decoded| && 0 <= k < |handed| ==> decoded[i].frame != handed[k].frame
  }

  predicate Rising(handed: seq<Job>) {
    forall i, k :: 0 <= i < k < |handed| ==> handed[i].frame < handed[k].frame
  }

  predicate FramesFine(s: State) {
    && Numbers(s.frames, s.inb.decoded, s.out.handed)
    && Apart(s.inb.decoded, s.out.handed) && Rising(s.out.handed)
    && (InHand(s.work).Some? ==>
          InHand(s.work).value == s.frames > 0 && Numbers(s.frames - 1, s.inb.decoded, s.out.handed))
  }

  /** What numbering is about. */
  predicate NumbersStay(s: State, t: State) {
    && t.inb.decoded == s.inb.decoded && t.out.handed == s.out.handed
    && ((t.frames == s.frames && (InHand(t.work) == InHand(s.work) || InHand(t.work).None?))
        || (t.frames == s.frames + 1 && (InHand(t.work) == Some(t.frames) || InHand(t.work).None?)))
  }

  lemma StayFine(s: State, t: State)
    requires FramesFine(s) && NumbersStay(s, t)
    ensures FramesFine(t)
  {
    hide InHand;
  }

  lemma OtherFrames(s: State, step: Step)
    requires s.budget.Sound() && Can(s, step) && !step.OfArrival? && !step.OfWrite?
    ensures NumbersStay(s, Do(s, step))
  {
    hide Release, Close, Allowance.Sound, DoCall, DoObserve;
    match step {
      case OfCall(c) => CallNumbers(s, c);
      case OfObserve(o) => ObserveNumbers(s, o); hide NumbersStay;
      case _ =>
    }
  }

  lemma CallNumbers(s: State, step: CallStep)
    requires s.budget.Sound() && CanCall(s, step)
    ensures
      var t := DoCall(s, step);
      t.inb == s.inb && t.out.handed == s.out.handed && t.frames == s.frames && t.work == s.work
  {
    hide Reserve, Release, Cancel, Allowance.Sound;
  }

  /** What the coordinator goes on to after a record, made or not: nothing in hand but an undecoded frame. */
  predicate GoesOnTo(work: Work, next: Next) {
    && !work.Awaiting? && !work.Beginning? && !work.Handing? && !work.ObserveWait?
    && (InHand(work) == (if next.DecodeNext? then Some(next.frame) else None) || InHand(work).None?)
  }

  lemma RecordedShape(s: State, next: Next)
    ensures
      var t := Recorded(s, next);
      t == s.(out := s.out.(calls := t.out.calls), work := t.work) && GoesOnTo(t.work, next)
  {
  }

  lemma NotSubmittedShape(s: State, next: Next)
    ensures
      var t := NotSubmitted(s, next);
      t == s.(out := s.out.(calls := t.out.calls), work := t.work, stopping := t.stopping) && GoesOnTo(t.work, next)
  {
  }

  /** A step of a record touches the calls' answers, the budget and the recording, and nothing else but itself. */
  lemma ObserveShape(s: State, step: ObserveStep)
    requires s.budget.Sound() && CanObserve(s, step)
    ensures
      var t := DoObserve(s, step);
      && t == s.(budget := t.budget, rec := t.rec, out := s.out.(calls := t.out.calls), work := t.work, stopping := t.stopping)
      && (NextOf(t.work) == NextOf(s.work) || GoesOnTo(t.work, NextOf(s.work).value))
      && NextOf(s.work).Some?
  {
    match step {
      case Ask => RecordedShape(s, s.work.next);
      case Push => RecordedShape(s.(rec := s.rec.(channel := s.rec.channel + [s.work.record])), s.work.next);
      case Resume => NotSubmittedShape(s, s.work.next);
      case _ =>
    }
    hide Reserve, Release, Cancel, Allowance.Sound, Recorded, NotSubmitted, GoesOnTo;
  }

  lemma ObserveNumbers(s: State, step: ObserveStep)
    requires s.budget.Sound() && CanObserve(s, step)
    ensures NumbersStay(s, DoObserve(s, step))
  {
    ObserveShape(s, step);
    hide DoObserve, CanObserve, Allowance.Sound;
  }

  /** The packet read in frame f is decoded. */
  ghost predicate Decodes(s: State, t: State) {
    && InHand(s.work).Some? && InHand(t.work).None? && t.frames == s.frames && t.out.handed == s.out.handed
    && exists a :: t.inb.decoded == s.inb.decoded + [a] && a.frame == InHand(s.work).value
  }

  /** The frame built last is given to the pump. */
  ghost predicate HandsFrame(s: State, t: State) {
    && InHand(s.work).Some? && InHand(t.work).None? && t.frames == s.frames && t.inb.decoded == s.inb.decoded
    && exists j :: t.out.handed == s.out.handed + [j] && j.frame == InHand(s.work).value
  }

  lemma DecodesFine(s: State, t: State)
    requires FramesFine(s) && Decodes(s, t)
    ensures FramesFine(t)
  {
    hide InHand;
  }

  lemma HandsFine(s: State, t: State)
    requires FramesFine(s) && HandsFrame(s, t)
    ensures FramesFine(t)
  {
    hide InHand;
  }

  lemma ArrivalNumbers(s: State, step: ArrivalStep)
    requires s.budget.Sound() && CanArrival(s, step)
    ensures
      var t := DoArrival(s, step);
      if step.Decode? && step.result.Decoded? then Decodes(s, t) else NumbersStay(s, t)
  {
    hide Reserve, Release, Cancel, Charge, Allowance.Sound;
    if step.Decode? && step.result.Decoded? {
      var a := Arrival(s.work.frame, step.result.size, step.result.commits);
      assert DoArrival(s, step).inb.decoded == s.inb.decoded + [a];
    }
  }

  lemma WriteNumbers(s: State, step: WriteStep)
    requires s.budget.Sound() && CanWrite(s, step)
    ensures
      var t := DoWrite(s, step);
      if step.Hand? || step.HandGoodbye? then HandsFrame(s, t) else NumbersStay(s, t)
  {
    hide Release, Allowance.Sound, GetCall, HandsFrame;
    if step.Hand? || step.HandGoodbye? { HandNumbers(s, step); hide DoWrite; }
  }

  lemma HandNumbers(s: State, step: WriteStep)
    requires s.budget.Sound() && CanWrite(s, step) && (step.Hand? || step.HandGoodbye?)
    ensures HandsFrame(s, DoWrite(s, step))
  {
    hide Release, Allowance.Sound;
    var t := DoWrite(s, step);
    var j := t.out.handed[|s.out.handed|];
    assert t.out.handed == s.out.handed + [j] && j.frame == InHand(s.work).value;
  }

  lemma StepFrames(s: State, step: Step)
    requires s.budget.Sound() && FramesFine(s) && Can(s, step)
    ensures FramesFine(Do(s, step))
  {
    hide FramesFine, NumbersStay, Allowance.Sound, DoArrival, DoWrite, CanArrival, CanWrite;
    match step {
      case OfArrival(a) => ArrivalNumbers(s, a);
      case OfWrite(w) => WriteNumbers(s, w);
      case _ => OtherFrames(s, step);
    }
    hide Do, Can, Decodes, HandsFrame;
    var t := Do(s, step);
    if Decodes(s, t) { DecodesFine(s, t); } else if HandsFrame(s, t) { HandsFine(s, t); } else { StayFine(s, t); }
  }

  // ---- transitions ----------------------------------------------------------------------------

  /** The packet decoded from this frame carries a transition. */
  predicate Moves(decoded: seq<Arrival>, f: nat) {
    exists i :: 0 <= i < |decoded| && decoded[i].frame == f && decoded[i].commits
  }

  /** A call's frame of this number was written whole, and its packet carries a transition. */
  predicate Carries(wire: seq<Job>, f: nat) {
    exists i :: 0 <= i < |wire| && wire[i].CallJob? && wire[i].frame == f && wire[i].commits
  }

  /** The coordinator has yet to learn what became of this frame. */
  predicate Unread(work: Work, f: nat) {
    work.Awaiting? && work.frame == f
  }

  predicate AppliedWhen(s: State, f: nat) {
    f in s.applied <==> Moves(s.inb.decoded, f) || (Carries(s.out.wire, f) && !Unread(s.work, f))
  }

  lemma MovesAppend(decoded: seq<Arrival>, a: Arrival, f: nat)
    ensures Moves(decoded + [a], f) <==> Moves(decoded, f) || (a.frame == f && a.commits)
  {
    var longer := decoded + [a];
    if Moves(decoded, f) {
      var i :| 0 <= i < |decoded| && decoded[i].frame == f && decoded[i].commits;
      assert longer[i] == decoded[i];
    }
    if a.frame == f && a.commits { assert longer[|decoded|] == a; }
  }

  lemma CarriesAppend(wire: seq<Job>, j: Job, f: nat)
    ensures Carries(wire + [j], f) <==> Carries(wire, f) || (j.CallJob? && j.frame == f && j.commits)
  {
    var longer := wire + [j];
    if Carries(wire, f) {
      var i :| 0 <= i < |wire| && wire[i].CallJob? && wire[i].frame == f && wire[i].commits;
      assert longer[i] == wire[i];
    }
    if j.CallJob? && j.frame == f && j.commits { assert longer[|wire|] == j; }
  }

  /** Numbers rise, so no earlier frame has the last one's. */
  lemma LastCarries(jobs: seq<Job>, f: nat)
    requires jobs != [] && Rising(jobs) && f == jobs[|jobs| - 1].frame
    ensures !Carries(jobs[..|jobs| - 1], f)
    ensures Carries(jobs, f) <==> jobs[|jobs| - 1].CallJob? && jobs[|jobs| - 1].commits
  {
    assert jobs[..|jobs| - 1] + [jobs[|jobs| - 1]] == jobs;
    CarriesAppend(jobs[..|jobs| - 1], jobs[|jobs| - 1], f);
  }

  lemma UnhandedCarriesNot(handed: seq<Job>, wire: seq<Job>, f: nat)
    requires f > 0 && Numbers(f - 1, [], handed) && wire <= handed
    ensures !Carries(wire, f)
  {
  }

  /** Nothing a transition depends on. */
  predicate TransitionsStay(s: State, t: State) {
    && t.applied == s.applied && t.inb.decoded == s.inb.decoded && t.out.wire == s.out.wire
    && (t.work.Awaiting? || s.work.Awaiting? ==> t.work == s.work)
  }

  lemma OtherTransitions(s: State, step: Step)
    requires s.budget.Sound() && Can(s, step) && !step.OfArrival? && !step.OfWrite? && !(step.OfPump? && step.pump.WriteEnds?)
    ensures TransitionsStay(s, Do(s, step))
  {
    hide Release, Close, Allowance.Sound, DoCall, DoObserve;
    match step {
      case OfCall(c) => CallTransitions(s, c); hide TransitionsStay;
      case OfObserve(o) => ObserveTransitions(s, o); hide TransitionsStay;
      case _ =>
    }
  }

  lemma CallTransitions(s: State, step: CallStep)
    requires s.budget.Sound() && CanCall(s, step)
    ensures TransitionsStay(s, DoCall(s, step))
  {
    hide Reserve, Release, Cancel, Allowance.Sound;
  }

  lemma ObserveTransitions(s: State, step: ObserveStep)
    requires s.budget.Sound() && CanObserve(s, step)
    ensures TransitionsStay(s, DoObserve(s, step))
  {
    ObserveShape(s, step);
    hide DoObserve, CanObserve, Allowance.Sound;
  }

  lemma ArrivalTransitions(s: State, step: ArrivalStep)
    requires s.budget.Sound() && CanArrival(s, step) && !(step.Decode? && step.result.Decoded?)
    ensures TransitionsStay(s, DoArrival(s, step))
  {
    hide Reserve, Release, Cancel, Charge, Allowance.Sound;
  }

  lemma WriteTransitions(s: State, step: WriteStep)
    requires s.budget.Sound() && CanWrite(s, step) && !step.Hand? && !step.ReadResult?
    ensures TransitionsStay(s, DoWrite(s, step))
  {
    hide Release, Allowance.Sound;
  }

  lemma DecodeApplies(s: State, result: DecodeResult, f: nat)
    requires s.budget.Sound() && CanArrival(s, Decode(result)) && result.Decoded? && AppliedWhen(s, f)
    ensures AppliedWhen(DoArrival(s, Decode(result)), f)
  {
    hide Moves, Carries, Allowance.Sound;
    MovesAppend(s.inb.decoded, Arrival(s.work.frame, result.size, result.commits), f);
  }

  lemma HandApplies(s: State, f: nat)
    requires s.budget.Sound() && CanWrite(s, Hand) && FramesFine(s) && AppliedWhen(s, f) && s.out.wire <= s.out.handed
    ensures AppliedWhen(DoWrite(s, Hand), f)
  {
    hide Moves, Carries, Allowance.Sound;
    if f == s.work.frame { UnhandedCarriesNot(s.out.handed, s.out.wire, f); }
  }

  lemma ReadApplies(s: State, raw: nat, body: nat, f: nat)
    requires s.budget.Sound() && CanWrite(s, ReadResult(raw, body)) && FramesFine(s) && Frames(s.out, s.work) && AppliedWhen(s, f)
    ensures AppliedWhen(DoWrite(s, ReadResult(raw, body)), f)
  {
    hide Moves, Carries, Allowance.Sound, InTurn, GoodbyeLast, Numbers, Apart, InHand;
    if f == s.work.frame { LastCarries(s.out.handed, f); }
  }

  lemma PumpApplies(s: State, ok: bool, f: nat)
    requires CanPump(s, WriteEnds(ok)) && Frames(s.out, s.work) && AppliedWhen(s, f)
    ensures AppliedWhen(DoPump(s, WriteEnds(ok)), f)
  {
    hide Moves, Carries, InTurn, GoodbyeLast;
    CarriesAppend(s.out.wire, s.out.pump.job, f);
  }

  lemma WirePrefix(s: State)
    requires Frames(s.out, s.work)
    ensures s.out.wire <= s.out.handed
  {
  }

  lemma StepApplies(s: State, step: Step, f: nat)
    requires s.budget.Sound() && FramesFine(s) && Frames(s.out, s.work) && Can(s, step) && AppliedWhen(s, f)
    ensures AppliedWhen(Do(s, step), f)
  {
    hide FramesFine, Frames, Allowance.Sound, DoArrival, DoWrite, DoPump, CanArrival, CanWrite, CanPump, AppliedWhen, TransitionsStay;
    match step {
      case OfArrival(Decode(Decoded(n, c, b))) => DecodeApplies(s, Decoded(n, c, b), f);
      case OfArrival(a) => ArrivalTransitions(s, a);
      case OfWrite(Hand) => WirePrefix(s); HandApplies(s, f);
      case OfWrite(ReadResult(raw, body)) => ReadApplies(s, raw, body, f);
      case OfWrite(w) => WriteTransitions(s, w);
      case OfPump(WriteEnds(ok)) => PumpApplies(s, ok, f);
      case _ => OtherTransitions(s, step);
    }
    hide Do, Can;
    if TransitionsStay(s, Do(s, step)) { SameApplies(s, Do(s, step), f); }
  }

  lemma SameApplies(s: State, t: State, f: nat)
    requires AppliedWhen(s, f) && TransitionsStay(s, t)
    ensures AppliedWhen(t, f)
  {
    hide Moves, Carries;
  }

  // ---- what the session answered ------------------------------------------------------------------

  /** A frame the session built for a call, and whether its packet carries a transition. */
  datatype Built = Built(call: nat, frame: nat, commits: bool)

  function JustBuilt(s: State, step: Step): set<Built>
    requires Can(s, step)
  {
    match step
    case OfWrite(Encode(Encoded(commits))) => {Built(s.work.call, s.frames + 1, commits)}
    case _ => {}
  }

  /** Everything the session built in a run. */
  function AllBuilt(s: State, steps: seq<Step>): set<Built>
    requires s.budget.Sound() && CanAll(s, steps)
    decreases |steps|
  {
    if steps == [] then {} else JustBuilt(s, steps[0]) + AllBuilt(Do(s, steps[0]), steps[1..])
  }

  /** The frame being taken to the pump. */
  function Carrying(work: Work): set<Built> {
    match work
    case Beginning(w, f, commits) => {Built(w, f, commits)}
    case Handing(w, f, commits) => {Built(w, f, commits)}
    case _ => {}
  }

  ghost predicate OneEach(known: set<Built>, n: nat) {
    && (forall a :: a in known ==> a.frame <= n)
    && (forall a, b :: a in known && b in known && a.frame == b.frame ==> a == b)
  }

  predicate AllKnown(handed: seq<Job>, known: set<Built>) {
    forall i :: 0 <= i < |handed| && handed[i].CallJob? ==> Built(handed[i].call, handed[i].frame, handed[i].commits) in known
  }

  ghost predicate Sourced(s: State, known: set<Built>) {
    OneEach(known, s.frames) && Carrying(s.work) <= known && AllKnown(s.out.handed, known)
  }

  /** A step builds nothing, or what it builds has a number of its own; what it hands over was carried. */
  predicate Passes(s: State, t: State, new': set<Built>) {
    && s.frames <= t.frames
    && (new' == {} || exists b :: b in new' && new' == {b} && b.frame == t.frames == s.frames + 1)
    && Carrying(t.work) <= Carrying(s.work) + new'
    && (t.out.handed == s.out.handed
        || (|t.out.handed| == |s.out.handed| + 1 && t.out.handed[..|s.out.handed|] == s.out.handed
            && var j := t.out.handed[|s.out.handed|];
               j.CallJob? ==> Built(j.call, j.frame, j.commits) in Carrying(s.work)))
  }

  lemma PassesSourced(s: State, t: State, new': set<Built>, known: set<Built>)
    requires Sourced(s, known) && Passes(s, t, new')
    ensures Sourced(t, known + new')
  {
    hide Carrying;
  }

  lemma WritePasses(s: State, step: WriteStep)
    requires s.budget.Sound() && CanWrite(s, step)
    ensures Passes(s, DoWrite(s, step), JustBuilt(s, OfWrite(step)))
  {
    hide Release, Allowance.Sound, GetCall;
    if step.Encode? && step.encoded.Encoded? {
      assert Built(s.work.call, s.frames + 1, step.encoded.commits) in JustBuilt(s, OfWrite(step));
    }
  }

  lemma OtherPasses(s: State, step: Step)
    requires s.budget.Sound() && Can(s, step) && !step.OfWrite?
    ensures Passes(s, Do(s, step), {})
  {
    hide Release, Close, Allowance.Sound, DoCall, DoObserve, DoArrival;
    match step {
      case OfCall(c) => CallNumbers(s, c);
      case OfObserve(o) => ObservePasses(s, o); hide Passes;
      case OfArrival(a) => ArrivalPasses(s, a); hide Passes;
      case _ =>
    }
  }

  lemma ObservePasses(s: State, step: ObserveStep)
    requires s.budget.Sound() && CanObserve(s, step)
    ensures Passes(s, DoObserve(s, step), {})
  {
    ObserveShape(s, step);
    hide DoObserve, CanObserve, Allowance.Sound;
  }

  lemma ArrivalPasses(s: State, step: ArrivalStep)
    requires s.budget.Sound() && CanArrival(s, step)
    ensures Passes(s, DoArrival(s, step), {})
  {
    hide Reserve, Release, Cancel, Charge, Allowance.Sound;
  }

  lemma {:induction false} RunSourced(s: State, steps: seq<Step>, known: set<Built>)
    requires s.budget.Sound() && CanAll(s, steps) && Sourced(s, known)
    ensures Sourced(DoAll(s, steps), known + AllBuilt(s, steps))
    decreases |steps|
  {
    hide Allowance.Sound, Do, Can, Sourced, JustBuilt, Passes;
    if steps == [] {
      assert known + {} == known;
    } else {
      var t, built := Do(s, steps[0]), JustBuilt(s, steps[0]);
      if steps[0].OfWrite? { StepIsWrite(s, steps[0]); } else { OtherPasses(s, steps[0]); OthersBuildNothing(s, steps[0]); }
      PassesSourced(s, t, built, known);
      RunSourced(t, steps[1..], known + built);
      assert known + built + AllBuilt(t, steps[1..]) == known + (built + AllBuilt(t, steps[1..]));
    }
  }

  lemma StepIsWrite(s: State, step: Step)
    requires s.budget.Sound() && Can(s, step) && step.OfWrite?
    ensures Passes(s, Do(s, step), JustBuilt(s, step))
  {
    WritePasses(s, step.write);
    hide Passes, DoWrite, JustBuilt, Allowance.Sound;
  }

  lemma OthersBuildNothing(s: State, step: Step)
    requires Can(s, step) && !step.OfWrite?
    ensures JustBuilt(s, step) == {}
  {
  }

  // ---- every run --------------------------------------------------------------------------------------

  lemma {:induction false} RunFrames(s: State, steps: seq<Step>, f: nat)
    requires Safe(s) && WriteFine(s) && FramesFine(s) && AppliedWhen(s, f) && CanAll(s, steps)
    ensures FramesFine(DoAll(s, steps)) && AppliedWhen(DoAll(s, steps), f)
    decreases |steps|
  {
    assert s.budget.Sound() && Frames(s.out, s.work);
    hide Safe, WriteFine, FramesFine, AppliedWhen, Frames, Do, Can, Allowance.Sound;
    if steps != [] {
      StepSafe(s, steps[0]);
      StepWrites(s, steps[0]);
      StepFrames(s, steps[0]);
      StepApplies(s, steps[0], f);
      RunFrames(Do(s, steps[0]), steps[1..], f);
    }
  }

  lemma InitFrames(cfg: Config, f: nat)
    ensures FramesFine(Init(cfg)) && AppliedWhen(Init(cfg), f) && Sourced(Init(cfg), {})
  {
    hide New, Allowance.Sound;
  }

  /** Frames read and frames written are numbered by one counter, each with its own number, both in rising order. */
  lemma FramesDistinct(cfg: Config, steps: seq<Step>)
    requires CanAll(Init(cfg), steps)
    ensures
      var s := DoAll(Init(cfg), steps);
      && (forall i, k :: 0 <= i < k < |s.out.handed| ==> s.out.handed[i].frame < s.out.handed[k].frame)
      && (forall i, k :: 0 <= i < |s.inb.decoded| && 0 <= k < |s.out.handed| ==> s.inb.decoded[i].frame != s.out.handed[k].frame)
      && (forall i :: 0 <= i < |s.out.handed| ==> 1 <= s.out.handed[i].frame <= s.frames)
      && (forall i :: 0 <= i < |s.inb.decoded| ==> 1 <= s.inb.decoded[i].frame <= s.frames)
  {
    InitSafe(cfg);
    InitWrites(cfg);
    InitFrames(cfg, 0);
    hide CanAll, DoAll, Init, Safe, WriteFine, AppliedWhen, Sourced, InHand;
    RunFrames(Init(cfg), steps, 0);
  }

  /**
   The transitions committed are those of the packets decoded, and those of the frames written
   whole whose outcome the coordinator has read: no other, and none is left out.
   */
  lemma CommitsExactly(cfg: Config, steps: seq<Step>, f: nat)
    requires CanAll(Init(cfg), steps)
    ensures
      var s := DoAll(Init(cfg), steps);
      f in s.applied <==>
        || (exists i :: 0 <= i < |s.inb.decoded| && s.inb.decoded[i].frame == f && s.inb.decoded[i].commits)
        || ((exists i :: 0 <= i < |s.out.wire| && s.out.wire[i].CallJob? && s.out.wire[i].frame == f && s.out.wire[i].commits)
            && !(s.work.Awaiting? && s.work.frame == f))
  {
    InitSafe(cfg);
    InitWrites(cfg);
    InitFrames(cfg, f);
    hide CanAll, DoAll, Init, Safe, WriteFine, FramesFine, Sourced;
    RunFrames(Init(cfg), steps, f);
  }

  /** What the pump is given for a call is what the session built for that call, transition and all. */
  lemma HandsWhatWasBuilt(cfg: Config, steps: seq<Step>, i: nat)
    requires CanAll(Init(cfg), steps)
    requires i < |DoAll(Init(cfg), steps).out.handed| && DoAll(Init(cfg), steps).out.handed[i].CallJob?
    ensures
      var j, built := DoAll(Init(cfg), steps).out.handed[i], AllBuilt(Init(cfg), steps);
      && Built(j.call, j.frame, j.commits) in built
      && forall b :: b in built && b.frame == j.frame ==> b == Built(j.call, j.frame, j.commits)
  {
    InitFrames(cfg, 0);
    hide CanAll, DoAll, Init, AppliedWhen, FramesFine, AllBuilt;
    RunSourced(Init(cfg), steps, {});
    assert {} + AllBuilt(Init(cfg), steps) == AllBuilt(Init(cfg), steps);
  }
}
