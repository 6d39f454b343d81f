/**
 Every step of the stream is one of a dozen balanced changes to what its holders
 hold, and a balanced change conserves the budget.
 */
module StreamConservation {
  import opened Wrappers
  import opened Budget
  import opened Stream
  import opened StreamBalance

  /** What a step does to the holders. `at` is a holder's place among the stakes. */
  datatype Change =
    | Stays
    | Enters(items: nat, bytes: nat)                  // a new holder asks
    | Asks(at: nat, items: nat, bytes: nat)           // a holder asks
    | Notices(at: nat)                                // a claim was decided
    | Cancels(at: nat)                                // a claim is withdrawn
    | Refunds(at: nat)                                // held capacity is released
    | Deposits(at: nat)                               // held capacity goes into a queue
    | Settles(at: nat)                                // a granted claim goes into a queue
    | Collects(at: nat, items: nat, bytes: nat)       // capacity leaves a queue
    | Transfers(at: nat, to: nat)
    | Charges(at: nat, items: nat, bytes: nat)        // capacity is taken without asking
    | Returns(items: nat, bytes: nat)                 // queued capacity is released
    | Closes

  function Asked(b: Allowance, items: nat, bytes: nat): Stake
    requires b.Sound()
  {
    var r := Reserve(b, items, bytes).1;
    if r.Ok? then Claim(r.value, items, bytes) else NoStake
  }

  predicate Decided(b: Allowance, k: Stake) {
    k.Claim? && k.request < |b.requests| && b.requests[k.request].ready
  }

  function Won(b: Allowance, k: Stake): Stake
    requires Decided(b, k)
  {
    if b.requests[k.request].granted then Held(k.items, k.bytes) else NoStake
  }

  /** The budget and the stakes after a change, and how much more lies in the queues. */
  predicate Accounts(b: Allowance, ks: seq<Stake>, c: Allowance, js: seq<Stake>, items: int, bytes: int, change: Change)
    requires b.Sound()
  {
    match change
    case Stays => c == b && js == ks && items == 0 && bytes == 0
    case Enters(n, m) =>
      c == Reserve(b, n, m).0 && js == ks + [Asked(b, n, m)] && items == 0 && bytes == 0
    case Asks(at, n, m) =>
      && at < |ks| && ks[at] == NoStake
      && c == Reserve(b, n, m).0 && js == ks[at := Asked(b, n, m)] && items == 0 && bytes == 0
    case Notices(at) =>
      at < |ks| && Decided(b, ks[at]) && c == b && js == ks[at := Won(b, ks[at])] && items == 0 && bytes == 0
    case Cancels(at) =>
      && at < |ks| && ks[at].Claim? && ks[at].request < |b.requests|
      && c == Cancel(b, ks[at].request) && js == ks[at := NoStake] && items == 0 && bytes == 0
    case Refunds(at) =>
      && at < |ks| && ks[at].Held?
      && c == Release(b, ks[at].items, ks[at].bytes) && js == ks[at := NoStake] && items == 0 && bytes == 0
    case Deposits(at) =>
      at < |ks| && ks[at].Held? && c == b && js == ks[at := NoStake] && items == ks[at].items && bytes == ks[at].bytes
    case Settles(at) =>
      && at < |ks| && Decided(b, ks[at]) && Won(b, ks[at]).Held?
      && c == b && js == ks[at := NoStake] && items == ks[at].items && bytes == ks[at].bytes
    case Collects(at, n, m) =>
      at < |ks| && ks[at] == NoStake && c == b && js == ks[at := Held(n, m)] && items + n == 0 && bytes + m == 0
    case Transfers(at, to) =>
      && at < |ks| && to < |ks| && at != to && ks[at].Held? && ks[to] == NoStake
      && c == b && js == ks[at := NoStake][to := ks[at]] && items == 0 && bytes == 0
    case Charges(at, n, m) =>
      at < |ks| && ks[at] == NoStake && c == Charge(b, n, m) && js == ks[at := Held(n, m)] && items == 0 && bytes == 0
    case Returns(n, m) => c == Release(b, n, m) && js == ks && items + n == 0 && bytes + m == 0
    case Closes => c == Close(b, None) && js == ks && items == 0 && bytes == 0
  }

  lemma AppendBalanced(b: Allowance, ks: seq<Stake>, items: int, bytes: int)
    requires Balanced(b, ks, items, bytes)
    ensures Balanced(b, ks + [NoStake], items, bytes)
  {
    var js := ks + [NoStake];
    assert js[..|js| - 1] == ks;
    forall i | 0 <= i < |js| ensures Claimant(b, js, i) { assert i < |ks| ==> Claimant(b, ks, i); }
    forall q | 0 <= q < |b.queue| ensures Claimed(js, b.queue[q]) {
      assert Claimed(ks, b.queue[q]);
      var i :| 0 <= i < |ks| && Claims(ks[i], b.queue[q]);
      assert js[i] == ks[i];
    }
  }

  lemma ResultBalanced(b: Allowance, ks: seq<Stake>, n: int, m: int, c: Allowance, js: seq<Stake>, items: int, bytes: int, change: Change)
    requires Balanced(b, ks, n, m) && Accounts(b, ks, c, js, items, bytes, change)
    ensures Balanced(c, js, n + items, m + bytes)
  {
    hide Grant, Release, Reserve, Cancel, Balanced;
    match change {
      case Stays =>
      case Enters(x, y) =>
        AppendBalanced(b, ks, n, m);
        ReserveBalanced(b, ks + [NoStake], n, m, |ks|, x, y);
        assert js == (ks + [NoStake])[|ks| := Asked(b, x, y)];
      case Asks(at, x, y) => ReserveBalanced(b, ks, n, m, at, x, y);
      case Notices(at) => Notice(b, ks, n, m, at);
      case Cancels(at) => CancelBalanced(b, ks, n, m, at);
      case Refunds(at) => Refund(b, ks, n, m, at);
      case Deposits(at) => Deposit(b, ks, n, m, at);
      case Settles(at) =>
        Notice(b, ks, n, m, at);
        Deposit(b, ks[at := Won(b, ks[at])], n, m, at);
        assert js == ks[at := Won(b, ks[at])][at := NoStake];
      case Collects(at, x, y) => MoveBalanced(b, ks, n, m, at, Held(x, y), n - x, m - y);
      case Transfers(at, to) =>
        Deposit(b, ks, n, m, at);
        MoveBalanced(b, ks[at := NoStake], n + ks[at].items, m + ks[at].bytes, to, ks[at], n, m);
      case Charges(at, x, y) =>
        ChargeBalanced(b, ks, n, m, x, y);
        MoveBalanced(c, ks, n + x, m + y, at, Held(x, y), n, m);
      case Returns(x, y) => ReleaseBalanced(b, ks, n, m, x, y);
      case Closes => CloseBalanced(b, ks, n, m, None);
    }
  }

  // ---- which change each step is -----------------------------------------------------------------

  /** The step from `s` to `t` is this change. */
  ghost predicate Effect(s: State, t: State, change: Change)
    requires s.budget.Sound()
  {
    Accounts(s.budget, Stakes(s), t.budget, Stakes(t),
           QueuedItems(t) - QueuedItems(s), QueuedBytes(t) - QueuedBytes(s), change)
  }

  lemma EffectConserved(s: State, t: State, change: Change)
    requires Conserved(s) && Effect(s, t, change)
    ensures Conserved(t)
  {
    ResultBalanced(s.budget, Stakes(s), QueuedItems(s), QueuedBytes(s), t.budget, Stakes(t),
                   QueuedItems(t) - QueuedItems(s), QueuedBytes(t) - QueuedBytes(s), change);
  }

  /** Nothing but the named stake differs. */
  predicate OneStake(s: State, t: State, at: nat) {
    && |t.out.calls| == |s.out.calls|
    && (at != TURN ==> TurnStake(t.work) == TurnStake(s.work))
    && (at != WORK ==> WorkStake(t.work) == WorkStake(s.work))
    && (at != PENDING ==> PendingStake(t.inb.pending) == PendingStake(s.inb.pending))
    && (at != DISPATCHER ==> DispatcherStake(t.rec.dispatcher) == DispatcherStake(s.rec.dispatcher))
    && (forall w :: 0 <= w < |s.out.calls| && at != CALLS + w ==> t.out.calls[w].phase == s.out.calls[w].phase)
  }

  lemma OneStakeIs(s: State, t: State, at: nat)
    requires OneStake(s, t, at) && at < |Stakes(s)|
    ensures |Stakes(t)| == |Stakes(s)| && Stakes(t) == Stakes(s)[at := Stakes(t)[at]]
  {
  }

  function CallChange(step: CallStep): Change {
    match step
    case Enter => Enters(1, 0)
    case NoticeGrant(w) => Notices(CALLS + w)
    case GiveUpWaiting(w) => Cancels(CALLS + w)
    case GiveUpOffering(w, _) => Refunds(CALLS + w)
    case TakeResult(_) => Stays
    case GiveUpAccepted(_) => Stays
  }

  lemma EnterEffect(s: State)
    requires s.budget.Sound()
    ensures Effect(s, DoCall(s, Enter), Enters(1, 0))
  {
    hide Grant, Release, Reserve, Cancel, Allowance.Sound;
    assert Stakes(DoCall(s, Enter)) == Stakes(s) + [Asked(s.budget, 1, 0)];
  }

  /** Only one call changes, and only in the field a step of its own sets. */
  lemma OneCall(s: State, step: CallStep)
    requires s.budget.Sound() && CanCall(s, step) && !step.Enter?
    ensures
      var t := DoCall(s, step);
      && t == s.(budget := t.budget, stopping := t.stopping, out := s.out.(calls := t.out.calls))
      && t.out.calls == s.out.calls[step.call := t.out.calls[step.call]]
  {
    hide Grant, Release, Reserve, Cancel, Allowance.Sound;
  }

  /** Only one call's stake changes, and nothing moves in or out of the queues. */
  lemma OneCallStake(s: State, step: CallStep)
    requires s.budget.Sound() && CanCall(s, step) && !step.Enter?
    ensures
      var t, at := DoCall(s, step), CALLS + step.call;
      && step.call < |s.out.calls| == |t.out.calls| && at < |Stakes(s)|
      && Stakes(s)[at] == CallStake(s.out.calls[step.call])
      && Stakes(t) == Stakes(s)[at := CallStake(t.out.calls[step.call])]
      && QueuedItems(t) == QueuedItems(s) && QueuedBytes(t) == QueuedBytes(s)
  {
    OneCall(s, step);
    hide DoCall, Allowance.Sound, Sizes, RecordBytes, CallStake;
    OneStakeIs(s, DoCall(s, step), CALLS + step.call);
  }

  lemma GiveUpStakes(s: State, step: CallStep)
    requires s.budget.Sound() && CanCall(s, step) && (step.GiveUpWaiting? || step.GiveUpOffering?)
    ensures
      var t := DoCall(s, step);
      var k := CallStake(s.out.calls[step.call]);
      && |t.out.calls| == |s.out.calls| && CallStake(t.out.calls[step.call]) == NoStake
      && if step.GiveUpWaiting? then k.Claim? && k.request < |s.budget.requests| && t.budget == Cancel(s.budget, k.request)
         else k == Held(1, 0) && t.budget == Release(s.budget, 1, 0)
  {
    hide Grant, Release, Reserve, Cancel, Allowance.Sound;
  }

  lemma GiveUpEffect(s: State, step: CallStep)
    requires s.budget.Sound() && CanCall(s, step) && (step.GiveUpWaiting? || step.GiveUpOffering?)
    ensures Effect(s, DoCall(s, step), CallChange(step))
  {
    OneCallStake(s, step);
    GiveUpStakes(s, step);
    hide DoCall, CanCall, Stakes, CallStake, QueuedItems, QueuedBytes, Release, Cancel, Allowance.Sound, Reserve, Charge, Close;
    var t, at := DoCall(s, step), CALLS + step.call;
    assert Stakes(t) == Stakes(s)[at := NoStake];
    if step.GiveUpWaiting? {
      assert Effect(s, t, Cancels(at));
    } else {
      assert Effect(s, t, Refunds(at));
    }
  }

  lemma NoticeGrantStakes(s: State, w: nat)
    requires s.budget.Sound() && CanCall(s, NoticeGrant(w))
    ensures
      var t := DoCall(s, NoticeGrant(w));
      && Decided(s.budget, CallStake(s.out.calls[w]))
      && |t.out.calls| == |s.out.calls|
      && CallStake(t.out.calls[w]) == Won(s.budget, CallStake(s.out.calls[w]))
      && t.budget == s.budget
  {
    hide Grant, Release, Reserve, Cancel, Allowance.Sound;
  }

  lemma NoticeGrantEffect(s: State, w: nat)
    requires s.budget.Sound() && CanCall(s, NoticeGrant(w))
    ensures Effect(s, DoCall(s, NoticeGrant(w)), Notices(CALLS + w))
  {
    OneCallStake(s, NoticeGrant(w));
    NoticeGrantStakes(s, w);
    hide DoCall, CanCall, Stakes, CallStake, QueuedItems, QueuedBytes, Won, Allowance.Sound;
  }

  lemma ResultStakes(s: State, step: CallStep)
    requires s.budget.Sound() && CanCall(s, step) && (step.TakeResult? || step.GiveUpAccepted?)
    ensures
      var t := DoCall(s, step);
      && t.budget == s.budget && |t.out.calls| == |s.out.calls|
      && CallStake(t.out.calls[step.call]) == CallStake(s.out.calls[step.call]) == NoStake
  {
    hide Allowance.Sound;
  }

  lemma ResultEffect(s: State, step: CallStep)
    requires s.budget.Sound() && CanCall(s, step) && (step.TakeResult? || step.GiveUpAccepted?)
    ensures Effect(s, DoCall(s, step), Stays)
  {
    OneCallStake(s, step);
    ResultStakes(s, step);
    hide DoCall, CanCall, Stakes, CallStake, QueuedItems, QueuedBytes, Allowance.Sound;
  }

  lemma CallEffect(s: State, step: CallStep)
    requires s.budget.Sound() && CanCall(s, step)
    ensures Effect(s, DoCall(s, step), CallChange(step))
  {
    hide DoCall, Effect, Allowance.Sound;
    match step {
      case Enter => EnterEffect(s);
      case GiveUpWaiting(_) => GiveUpEffect(s, step);
      case GiveUpOffering(_, _) => GiveUpEffect(s, step);
      case NoticeGrant(w) => NoticeGrantEffect(s, w);
      case _ => ResultEffect(s, step);
    }
  }

  function ReadChange(s: State, step: ReadStep): Change
    requires CanRead(s, step)
  {
    match step
    case ReturnCharge(k) => Returns(1, s.inb.taken[k].size)
    case _ => Stays
  }

  lemma ReadEffect(s: State, step: ReadStep)
    requires s.budget.Sound() && CanRead(s, step)
    ensures Effect(s, DoRead(s, step), ReadChange(s, step))
  {
    hide Grant, Release, Reserve, Cancel, Allowance.Sound;
    assert Stakes(DoRead(s, step)) == Stakes(s);
    hide Stakes;
    match step {
      case Take => SizesAppend(s.inb.taken, s.inb.queue[0]);
      case ReturnCharge(k) => SizesRemove(s.inb.taken, k);
      case ReportEnd =>
    }
  }

  lemma PumpEffect(s: State, step: PumpStep)
    requires s.budget.Sound() && CanPump(s, step)
    ensures Effect(s, DoPump(s, step), Stays)
  {
    hide Allowance.Sound;
    assert Stakes(DoPump(s, step)) == Stakes(s);
  }

  function SelectChange(step: SelectStep): Change {
    if step.AcceptCall? then Transfers(CALLS + step.call, TURN) else Stays
  }

  lemma SelectStays(s: State, step: SelectStep)
    requires CanSelect(s, step) && !step.AcceptCall?
    ensures
      var t := DoSelect(s, step);
      && TurnStake(t.work) == NoStake && WorkStake(t.work) == NoStake
      && t.budget == s.budget && t.out == s.out && t.rec == s.rec && t.inb.(reader := s.inb.reader) == s.inb
  {
    hide SetCall;
  }

  lemma AcceptCallStakes(s: State, w: nat)
    requires CanSelect(s, AcceptCall(w))
    ensures
      var t := DoSelect(s, AcceptCall(w));
      && Stakes(t) == Stakes(s)[CALLS + w := NoStake][TURN := Held(1, 0)]
      && Stakes(s)[CALLS + w] == Held(1, 0) && Stakes(s)[TURN] == NoStake
      && t.budget == s.budget && t.inb == s.inb && t.rec == s.rec
  {
  }

  lemma SelectEffect(s: State, step: SelectStep)
    requires s.budget.Sound() && CanSelect(s, step)
    ensures Effect(s, DoSelect(s, step), SelectChange(step))
  {
    hide Allowance.Sound;
    if step.AcceptCall? {
      AcceptCallStakes(s, step.call);
      hide DoSelect, Stakes;
    } else {
      SelectStays(s, step);
      hide DoSelect;
      assert Stakes(DoSelect(s, step)) == Stakes(s);
    }
  }

  // ---- observing -------------------------------------------------------------------------------------

  /** Going on after a record changes nobody's stake but the coordinator's own. */
  predicate Continues(s: State, t: State, next: Next) {
    && WorkStake(t.work) == NoStake
    && TurnStake(t.work) == (if ForCall(next) then Held(1, 0) else NoStake)
    && t.budget == s.budget && t.inb == s.inb && t.rec == s.rec
    && |t.out.calls| == |s.out.calls|
    && (forall w :: 0 <= w < |s.out.calls| ==> t.out.calls[w].phase == s.out.calls[w].phase)
  }

  lemma RecordedContinues(s: State, next: Next)
    ensures Continues(s, Recorded(s, next), next)
  {
  }

  lemma NotSubmittedContinues(s: State, next: Next)
    ensures Continues(s, NotSubmitted(s, next), next)
  {
  }

  function ObserveChange(s: State, step: ObserveStep): Change
    requires CanObserve(s, step)
  {
    match step
    case Ask => if s.cfg.sink then Asks(WORK, 1, s.work.input.bytes) else Stays
    case Granted => Notices(WORK)
    case StopWaiting => Cancels(WORK)
    case Push => Deposits(WORK)
    case StopSending => Refunds(WORK)
    case Resume => Stays
  }

  lemma AskEffect(s: State)
    requires s.budget.Sound() && CanObserve(s, Ask)
    ensures Effect(s, DoObserve(s, Ask), ObserveChange(s, Ask))
  {
    hide Grant, Release, Reserve, Cancel, Allowance.Sound;
    RecordedContinues(s, s.work.next);
    hide Recorded, NotSubmitted;
    OneStakeIs(s, DoObserve(s, Ask), WORK);
    hide OneStake;
  }

  lemma PushEffect(s: State)
    requires s.budget.Sound() && CanObserve(s, Push)
    ensures Effect(s, DoObserve(s, Push), Deposits(WORK))
  {
    hide Grant, Release, Reserve, Cancel, Allowance.Sound;
    var pushed := s.(rec := s.rec.(channel := s.rec.channel + [s.work.record]));
    RecordedContinues(pushed, s.work.next);
    RecordBytesAppend(s.rec.channel, s.work.record);
    hide Recorded, NotSubmitted, RecordBytes;
    OneStakeIs(s, DoObserve(s, Push), WORK);
    hide OneStake;
  }

  lemma ResumeEffect(s: State)
    requires s.budget.Sound() && CanObserve(s, Resume)
    ensures Effect(s, DoObserve(s, Resume), Stays)
  {
    hide Grant, Release, Reserve, Cancel, Allowance.Sound;
    NotSubmittedContinues(s, s.work.next);
    hide Recorded, NotSubmitted;
    OneStakeIs(s, DoObserve(s, Resume), WORK);
    hide OneStake;
  }

  lemma WaitLeaves(s: State, step: ObserveStep)
    requires s.budget.Sound() && CanObserve(s, step) && (step.Granted? || step.StopWaiting? || step.StopSending?)
    ensures
      var t := DoObserve(s, step);
      && OneStake(s, t, WORK) && t.inb == s.inb && t.rec.channel == s.rec.channel
      && WorkStake(t.work) == (if step.Granted? then Won(s.budget, WorkStake(s.work)) else NoStake)
  {
    hide Grant, Release, Reserve, Cancel, Allowance.Sound;
  }

  lemma WaitEffect(s: State, step: ObserveStep)
    requires s.budget.Sound() && CanObserve(s, step) && (step.Granted? || step.StopWaiting? || step.StopSending?)
    ensures Effect(s, DoObserve(s, step), ObserveChange(s, step))
  {
    hide Grant, Release, Reserve, Cancel, Allowance.Sound, Recorded, NotSubmitted, Sizes, RecordBytes;
    WaitLeaves(s, step);
    OneStakeIs(s, DoObserve(s, step), WORK);
    hide OneStake, Stakes, Won, TurnStake, PendingStake, DispatcherStake, CallStake;
  }

  lemma ObserveEffect(s: State, step: ObserveStep)
    requires s.budget.Sound() && CanObserve(s, step)
    ensures Effect(s, DoObserve(s, step), ObserveChange(s, step))
  {
    hide DoObserve, Effect, Allowance.Sound;
    match step {
      case Ask => AskEffect(s);
      case Push => PushEffect(s);
      case Resume => ResumeEffect(s);
      case _ => WaitEffect(s, step);
    }
  }

  // ---- arrivals -----------------------------------------------------------------------------------------

  /** The pending packet's reservation was granted, so the packet holds its capacity. */
  predicate PendingGranted(s: State) {
    s.inb.pending.Some? ==>
      && s.inb.pending.value.request < |s.budget.requests|
      && s.budget.requests[s.inb.pending.value.request].ready
      && s.budget.requests[s.inb.pending.value.request].granted
  }

  function ArrivalChange(s: State, step: ArrivalStep): Change
    requires CanArrival(s, step)
  {
    match step
    case ReserveQueue => Asks(PENDING, 1, s.work.arrival.size)
    case ChargeArrival => Charges(WORK, 1, s.work.arrival.size)
    case HandOver => if |s.inb.queue| < s.cfg.maxItems then Deposits(WORK) else Refunds(WORK)
    case SendPending => Settles(PENDING)
    case SendHandOff => if |s.inb.queue| < s.cfg.maxItems then Settles(PENDING) else Stays
    case CheckHandOff =>
      var r := s.budget.requests[s.inb.pending.value.request];
      if r.ready && !r.granted then Notices(PENDING) else Stays
    case CancelHandOff => Cancels(PENDING)
    case _ => Stays
  }

  lemma SettleEffect(s: State, step: ArrivalStep)
    requires s.budget.Sound() && CanArrival(s, step) && (step.SendPending? || step.SendHandOff?) && PendingGranted(s)
    ensures Effect(s, DoArrival(s, step), ArrivalChange(s, step))
  {
    hide Grant, Release, Reserve, Cancel, Allowance.Sound, Sizes, RecordBytes;
    SizesAppend(s.inb.queue, s.inb.pending.value.arrival);
    OneStakeIs(s, DoArrival(s, step), PENDING);
    hide OneStake, Stakes;
  }

  lemma AskQueueEffect(s: State, step: ArrivalStep)
    requires s.budget.Sound() && CanArrival(s, step)
    requires step.ReserveQueue? || step.CheckHandOff? || step.CancelHandOff?
    requires step.ReserveQueue? ==> s.inb.pending.None?
    ensures Effect(s, DoArrival(s, step), ArrivalChange(s, step))
  {
    hide Grant, Release, Reserve, Cancel, Allowance.Sound, Sizes, RecordBytes;
    OneStakeIs(s, DoArrival(s, step), PENDING);
    hide OneStake, Stakes;
  }

  lemma ChargeEffect(s: State)
    requires s.budget.Sound() && CanArrival(s, ChargeArrival)
    ensures Effect(s, DoArrival(s, ChargeArrival), ArrivalChange(s, ChargeArrival))
  {
    hide Grant, Release, Reserve, Cancel, Allowance.Sound, Sizes, RecordBytes;
    OneStakeIs(s, DoArrival(s, ChargeArrival), WORK);
    hide OneStake, Stakes;
  }

  lemma HandOverEffect(s: State)
    requires s.budget.Sound() && CanArrival(s, HandOver)
    ensures Effect(s, DoArrival(s, HandOver), ArrivalChange(s, HandOver))
  {
    hide Grant, Release, Reserve, Cancel, Allowance.Sound, Sizes, RecordBytes;
    SizesAppend(s.inb.queue, s.work.arrival);
    OneStakeIs(s, DoArrival(s, HandOver), WORK);
    hide OneStake, Stakes;
  }

  lemma ArrivalStays(s: State, step: ArrivalStep)
    requires s.budget.Sound() && CanArrival(s, step) && (step.Decode? || step.QueueClosed? || step.SendStopped?)
    ensures Effect(s, DoArrival(s, step), Stays)
  {
    hide Grant, Release, Reserve, Cancel, Allowance.Sound, Sizes, RecordBytes;
    OneStakeIs(s, DoArrival(s, step), WORK);
    hide OneStake, Stakes;
  }

  lemma ArrivalEffect(s: State, step: ArrivalStep)
    requires s.budget.Sound() && CanArrival(s, step)
    requires step.ReserveQueue? ==> s.inb.pending.None?
    requires step.SendPending? || step.SendHandOff? ==> PendingGranted(s)
    ensures Effect(s, DoArrival(s, step), ArrivalChange(s, step))
  {
    hide DoArrival, Effect, Allowance.Sound;
    match step {
      case SendPending => SettleEffect(s, step);
      case SendHandOff => SettleEffect(s, step);
      case ReserveQueue => AskQueueEffect(s, step);
      case CheckHandOff => AskQueueEffect(s, step);
      case CancelHandOff => AskQueueEffect(s, step);
      case ChargeArrival => ChargeEffect(s);
      case HandOver => HandOverEffect(s);
      case _ => ArrivalStays(s, step);
    }
  }

  // ---- writes, the dispatcher, ending ----------------------------------------------------------------------

  function WriteChange(step: WriteStep): Change {
    if step.ReleaseCall? then Refunds(TURN) else Stays
  }

  lemma ReportKeepsPhases(s: State, w: nat, o: Outcome)
    ensures
      var t := Report(s, w, o);
      && t.(out := s.out) == s
      && t.out.(calls := s.out.calls) == s.out
      && |t.out.calls| == |s.out.calls|
      && (forall v :: 0 <= v < |s.out.calls| ==> t.out.calls[v].phase == s.out.calls[v].phase)
  {
  }

  /** What a write step leaves alone, and where it may take the coordinator. */
  predicate WriteLeaves(s: State, t: State) {
    && TurnStake(t.work) == TurnStake(s.work) && WorkStake(t.work) == WorkStake(s.work) == NoStake
    && t.budget == s.budget && t.inb == s.inb && t.rec == s.rec && t.cfg == s.cfg && (s.stopping ==> t.stopping)
    && |t.out.calls| == |s.out.calls|
    && (forall w :: 0 <= w < |s.out.calls| ==> t.out.calls[w].phase == s.out.calls[w].phase)
  }

  lemma ReportedLeaves(s: State, step: WriteStep)
    requires s.budget.Sound() && CanWrite(s, step) && (step.HandStopped? || step.ReadResult?)
    ensures WriteLeaves(s, DoWrite(s, step))
  {
    hide Grant, Release, Allowance.Sound;
    if step.HandStopped? {
      ReportKeepsPhases(s, s.work.call, StreamEnded);
    } else {
      ReportKeepsPhases(s.(out := s.out.(result := None)), s.work.call, TransportFailed);
    }
    hide Report;
  }

  lemma WriteLeavesAll(s: State, step: WriteStep)
    requires s.budget.Sound() && CanWrite(s, step) && !step.ReleaseCall?
    ensures WriteLeaves(s, DoWrite(s, step))
  {
    hide Grant, Release, Allowance.Sound;
    if step.HandStopped? || step.ReadResult? {
      ReportedLeaves(s, step);
    } else {
      hide Report;
    }
  }

  lemma WriteEffect(s: State, step: WriteStep)
    requires s.budget.Sound() && CanWrite(s, step)
    ensures Effect(s, DoWrite(s, step), WriteChange(step))
  {
    hide Grant, Release, Allowance.Sound;
    var t := DoWrite(s, step);
    if step.ReleaseCall? {
      OneStakeIs(s, t, TURN);
    } else {
      WriteLeavesAll(s, step);
      hide DoWrite;
      OneStakeIs(s, t, WORK);
    }
  }

  function DispatchChange(s: State, step: DispatchStep): Change
    requires CanDispatch(s, step)
  {
    match step
    case TakeRecord => Collects(DISPATCHER, 1, s.rec.channel[0].input.bytes)
    case Deliver(_) => Refunds(DISPATCHER)
    case _ => Stays
  }

  lemma DispatchEffect(s: State, step: DispatchStep)
    requires s.budget.Sound() && CanDispatch(s, step)
    ensures Effect(s, DoDispatch(s, step), DispatchChange(s, step))
  {
    hide Grant, Release, Allowance.Sound;
    OneStakeIs(s, DoDispatch(s, step), DISPATCHER);
    hide OneStake, Stakes;
  }

  function EndChange(step: EndStep): Change {
    if step.CloseBudget? then Closes else Stays
  }

  lemma EndEffect(s: State, step: EndStep)
    requires s.budget.Sound() && CanEnd(s, step)
    ensures Effect(s, DoEnd(s, step), EndChange(step))
  {
    hide Allowance.Sound, Close;
    assert Stakes(DoEnd(s, step)) == Stakes(s);
  }

  // ---- the initial state ---------------------------------------------------------------------------------------

  lemma {:induction false} NoStakesSum(ks: seq<Stake>, rs: seq<Request>)
    requires forall i :: 0 <= i < |ks| ==> ks[i] == NoStake
    ensures SumItems(ks, rs) == 0 && SumBytes(ks, rs) == 0
  {
    if ks != [] { NoStakesSum(ks[..|ks| - 1], rs); }
  }

  lemma InitConserved(cfg: Config)
    ensures Conserved(Init(cfg))
  {
    var s := Init(cfg);
    assert Stakes(s) == [NoStake, NoStake, NoStake, NoStake];
    NoStakesSum(Stakes(s), []);
  }
}
