/**
 What a managed stream may keep in memory, in items and in bytes (stream_budget.go).

 `Allowance` is the budget as a value: every operation the mutex protects is one
 function on it. `Budget` is the object itself, each of whose methods is proved
 to do exactly what the function does. The stream's state machine uses the value.

 A request is named by its arrival number. `queue` holds the numbers still
 waiting and `grants` records every grant ever made, in the order it was made.
 */
module Budget {
  import opened Wrappers

  datatype StreamError = InvalidStream | LimitExceeded | StreamClosed | Cause(code: nat)

  datatype Request = Request(items: int, bytes: int, ready: bool, granted: bool, err: Option<StreamError>) {
    /** Why a finished reservation has no capacity, if it has none. */
    function Failure(): Option<StreamError> {
      if granted then None else if err.Some? then err else Some(StreamClosed)
    }
  }

  datatype Allowance = Allowance(
    maxItems: int,
    maxBytes: int,
    items: int,
    bytes: int,
    requests: seq<Request>,
    queue: seq<nat>,
    grants: seq<nat>,
    closed: Option<StreamError>)
  {
    predicate Fits(r: Request) {
      items + r.items <= maxItems && bytes + r.bytes <= maxBytes
    }

    /** The head of the queue, if there is one, does not fit. */
    predicate HeadBlocked()
      requires Sound()
    {
      queue != [] ==> !Fits(requests[queue[0]])
    }

    /** Grants, then waiters, are in arrival order, and each names a request. */
    ghost predicate Ordered() {
      && Increasing(grants)
      && Increasing(queue)
      && (forall g, q :: 0 <= g < |grants| && 0 <= q < |queue| ==> grants[g] < queue[q])
      && (forall g :: 0 <= g < |grants| ==> grants[g] < |requests|)
      && (forall q :: 0 <= q < |queue| ==> queue[q] < |requests|)
    }

    ghost predicate SoundRequest(i: nat)
      requires i < |requests|
    {
      var r := requests[i];
      && (i in queue <==> !r.ready)
      && (r.granted ==> r.ready && i in grants)
      && (!r.ready ==> r.err.None?)
      && 0 <= r.items <= maxItems
      && 0 <= r.bytes <= maxBytes
    }

    /** A request waits exactly while its ready channel is open. */
    ghost predicate Sound() {
      && Ordered()
      && (forall i :: 0 <= i < |requests| ==> SoundRequest(i))
      && (closed.Some? ==> queue == [])
    }

    /**
     What every operation keeps: `Sound`, and that a waiting request implies some
     capacity is held, which a later release will return.
     */
    ghost predicate Valid() {
      Sound() && (queue != [] ==> items > 0 || bytes > 0)
    }
  }

  predicate Increasing(s: seq<nat>) {
    forall i, j :: 0 <= i < j < |s| ==> s[i] < s[j]
  }

  function New(maxItems: int, maxBytes: int): Allowance {
    Allowance(maxItems, if maxBytes < 0 then 0 else maxBytes, 0, 0, [], [], [], None)
  }

  /** Closing a channel twice panics, so this asks that it is still open. */
  function Finish(r: Request, granted: bool, err: Option<StreamError>): Request
    requires !r.ready
  {
    r.(ready := true, granted := granted, err := err)
  }

  function GrantHead(b: Allowance): (g: Allowance)
    requires b.Sound() && b.queue != []
    ensures g.Sound()
  {
    var i := b.queue[0];
    var r := b.requests[i];
    assert b.SoundRequest(i) && i in b.queue;
    var g := b.(items := b.items + r.items,
                bytes := b.bytes + r.bytes,
                requests := b.requests[i := Finish(r, true, r.err)],
                queue := b.queue[1..],
                grants := b.grants + [i]);
    assert b.queue == [i] + g.queue;
    assert i !in g.queue;
    assert forall k :: 0 <= k < |g.requests| ==> g.SoundRequest(k) by {
      forall k | 0 <= k < |g.requests| ensures g.SoundRequest(k) {
        assert b.SoundRequest(k);
        assert k in b.queue <==> k == i || k in g.queue;
        assert g.grants[|b.grants|] == i;
      }
    }
    g
  }

  /** The grant loop: heads are granted until one does not fit. */
  function Grant(b: Allowance): (g: Allowance)
    requires b.Sound()
    ensures g.Sound() && g.HeadBlocked() && |g.requests| == |b.requests|
    decreases |b.queue|
  {
    if b.queue == [] || !b.Fits(b.requests[b.queue[0]]) then b
    else Grant(GrantHead(b))
  }

  function Enqueue(b: Allowance, items: int, bytes: int): (e: Allowance)
    requires b.Sound() && b.closed.None?
    requires 0 <= items <= b.maxItems && 0 <= bytes <= b.maxBytes
    ensures e.Sound()
  {
    var i := |b.requests|;
    var e := b.(requests := b.requests + [Request(items, bytes, false, false, None)],
                queue := b.queue + [i]);
    assert e.SoundRequest(i) by { assert e.queue[|b.queue|] == i; }
    assert forall k :: k in e.queue <==> k in b.queue || k == i;
    assert forall k :: 0 <= k < i ==> e.SoundRequest(k) by {
      forall k | 0 <= k < i ensures e.SoundRequest(k) {
        assert b.SoundRequest(k);
        assert e.requests[k] == b.requests[k];
      }
    }
    e
  }

  /** The request that `reserve` queued, or why it queued none. */
  function Reserve(b: Allowance, items: int, bytes: int): (r: (Allowance, Result<nat, StreamError>))
    requires b.Sound()
  {
    if items < 0 || bytes < 0 then (b, Err(InvalidStream))
    else if b.closed.Some? then (b, Err(b.closed.value))
    else if items > b.maxItems || bytes > b.maxBytes then (b, Err(LimitExceeded))
    else (Grant(Enqueue(b, items, bytes)), Ok(|b.requests|))
  }

  function Without(queue: seq<nat>, i: nat): (q: seq<nat>)
    requires Increasing(queue)
    ensures Increasing(q)
    ensures forall k :: k in q <==> k in queue && k != i
    ensures i !in queue ==> q == queue
    ensures |q| <= |queue| && (i in queue ==> |q| < |queue|)
    ensures queue != [] && queue[0] == i ==> q == queue[1..]
    ensures queue != [] && queue[0] != i ==> q != [] && q[0] == queue[0]
  {
    if queue == [] then []
    else if queue[0] == i then queue[1..]
    else [queue[0]] + Without(queue[1..], i)
  }

  function Return(b: Allowance, i: nat): (c: Allowance)
    requires b.Sound() && i < |b.requests| && b.requests[i].granted
    ensures c.Sound()
  {
    var r := b.requests[i];
    assert b.SoundRequest(i);
    var c := b.(items := b.items - r.items, bytes := b.bytes - r.bytes,
                requests := b.requests[i := r.(granted := false)]);
    assert forall k :: 0 <= k < |c.requests| ==> c.SoundRequest(k) by {
      forall k | 0 <= k < |c.requests| ensures c.SoundRequest(k) { assert b.SoundRequest(k); }
    }
    c
  }

  function Withdraw(b: Allowance, i: nat): (c: Allowance)
    requires b.Sound() && i in b.queue
    ensures c.Sound()
  {
    var r := b.requests[i];
    assert b.SoundRequest(i);
    var c := b.(queue := Without(b.queue, i), requests := b.requests[i := Finish(r, false, r.err)]);
    assert forall k :: 0 <= k < |c.requests| ==> c.SoundRequest(k) by {
      forall k | 0 <= k < |c.requests| ensures c.SoundRequest(k) { assert b.SoundRequest(k); }
    }
    assert c.Ordered() by {
      assert forall k :: 0 <= k < |c.queue| ==> c.queue[k] in b.queue;
    }
    c
  }

  /** A granted request gives its capacity back; a waiting one leaves the queue, and nothing is granted. */
  function Cancel(b: Allowance, i: nat): Allowance
    requires b.Sound() && i < |b.requests|
  {
    if b.requests[i].granted then Grant(Return(b, i))
    else if i in b.queue then Withdraw(b, i)
    else b
  }

  function Charge(b: Allowance, items: nat, bytes: nat): Allowance {
    b.(items := b.items + items, bytes := b.bytes + bytes)
  }

  lemma ChargeKeepsSound(b: Allowance, items: nat, bytes: nat)
    requires b.Sound()
    ensures Charge(b, items, bytes).Sound()
  {
    var c := Charge(b, items, bytes);
    forall i | 0 <= i < |c.requests| ensures c.SoundRequest(i) { assert b.SoundRequest(i); }
  }

  function Debit(b: Allowance, items: int, bytes: int): (d: Allowance)
    requires b.Sound()
    ensures d.Sound()
  {
    var d := b.(items := b.items - items, bytes := b.bytes - bytes);
    assert forall k :: 0 <= k < |d.requests| ==> d.SoundRequest(k) by {
      forall k | 0 <= k < |d.requests| ensures d.SoundRequest(k) { assert b.SoundRequest(k); }
    }
    d
  }

  function Release(b: Allowance, items: int, bytes: int): Allowance
    requires b.Sound()
  {
    Grant(Debit(b, items, bytes))
  }

  function Refused(rs: seq<Request>, cause: StreamError): (r: seq<Request>)
    ensures |r| == |rs|
    ensures forall i :: 0 <= i < |rs| ==> r[i] == if rs[i].ready then rs[i] else Finish(rs[i], rs[i].granted, Some(cause))
  {
    seq(|rs|, i requires 0 <= i < |rs| => if rs[i].ready then rs[i] else Finish(rs[i], rs[i].granted, Some(cause)))
  }

  function Close(b: Allowance, cause: Option<StreamError>): (c: Allowance)
    requires b.Sound()
    ensures c.Sound() && c.closed.Some?
  {
    if b.closed.Some? then b
    else
      var why := if cause.Some? then cause.value else StreamClosed;
      var c := b.(closed := Some(why), requests := Refused(b.requests, why), queue := []);
      assert forall k :: 0 <= k < |c.requests| ==> c.SoundRequest(k) by {
        forall k | 0 <= k < |c.requests| ensures c.SoundRequest(k) {
          assert b.SoundRequest(k);
        }
      }
      c
  }

  // ---- what every operation keeps --------------------------------------------------

  /** A blocked head is no larger than the whole budget, so somebody holds what it lacks. */
  lemma BlockedMeansHeld(b: Allowance)
    requires b.Sound() && b.HeadBlocked()
    ensures b.Valid()
  {
    if b.queue != [] {
      assert b.queue[0] in b.queue && b.SoundRequest(b.queue[0]);
    }
  }

  /** Grants go to a prefix of the queue, in queue order: nobody is overtaken. */
  lemma {:induction false} GrantServesPrefix(b: Allowance) returns (n: nat)
    requires b.Sound()
    ensures n <= |b.queue|
    ensures Grant(b).grants == b.grants + b.queue[..n] && Grant(b).queue == b.queue[n..]
    ensures b.HeadBlocked() <==> n == 0
    decreases |b.queue|
  {
    if b.HeadBlocked() {
      n := 0;
    } else {
      var c := GrantHead(b);
      var m := GrantServesPrefix(c);
      n := m + 1;
      assert b.queue[..n] == [b.queue[0]] + c.queue[..m];
    }
  }

  /** The grant loop touches the requests it serves and no other. */
  lemma {:induction false} GrantTouchesServed(b: Allowance, i: nat)
    requires b.Sound() && i < |b.requests|
    ensures Grant(b).requests[i] ==
      if i in b.queue && i !in Grant(b).queue then b.requests[i].(ready := true, granted := true) else b.requests[i]
    decreases |b.queue|
  {
    assert b.SoundRequest(i) && Grant(b).SoundRequest(i);
    if !b.HeadBlocked() {
      GrantTouchesServed(GrantHead(b), i);
      assert b.queue == [b.queue[0]] + GrantHead(b).queue;
    }
  }

  datatype Op =
    | DoReserve(items: int, bytes: int)
    | DoCancel(request: nat)
    | DoCharge(addItems: nat, addBytes: nat)
    | DoRelease(lessItems: nat, lessBytes: nat)
    | DoClose(cause: Option<StreamError>)

  /** Releasing more than is held panics; every other operation is always allowed. */
  predicate Allowed(b: Allowance, op: Op) {
    match op
    case DoCancel(i) => i < |b.requests|
    case DoRelease(n, m) => n <= b.items && m <= b.bytes
    case _ => true
  }

  function Apply(b: Allowance, op: Op): (a: Allowance)
    requires b.Sound() && Allowed(b, op)
    ensures a.Sound()
  {
    match op
    case DoReserve(n, m) => Reserve(b, n, m).0
    case DoCancel(i) => Cancel(b, i)
    case DoCharge(n, m) => ChargeKeepsSound(b, n, m); Charge(b, n, m)
    case DoRelease(n, m) => Release(b, n, m)
    case DoClose(cause) => Close(b, cause)
  }

  lemma OpKeepsValid(b: Allowance, op: Op)
    requires b.Valid() && Allowed(b, op)
    ensures Apply(b, op).Valid()
  {
    var c := Apply(b, op);
    match op {
      case DoReserve(_, _) => if c != b { BlockedMeansHeld(c); }
      case DoCancel(i) => if b.requests[i].granted { BlockedMeansHeld(c); }
      case DoCharge(n, m) => ChargeKeepsSound(b, n, m);
      case DoRelease(_, _) => BlockedMeansHeld(c);
      case DoClose(_) =>
    }
  }

  /** A request's ready channel, once closed, stays closed, and closes at most once. */
  lemma OpNeverReopens(b: Allowance, op: Op, i: nat)
    requires b.Valid() && Allowed(b, op) && i < |b.requests|
    ensures i < |Apply(b, op).requests|
    ensures b.requests[i].ready ==> Apply(b, op).requests[i].ready
    ensures b.requests[i].ready && op != DoCancel(i) ==> Apply(b, op).requests[i] == b.requests[i]
    ensures !b.requests[i].granted && Apply(b, op).requests[i].granted ==> i in b.queue
  {
    assert b.SoundRequest(i) && Apply(b, op).SoundRequest(i);
    match op {
      case DoReserve(n, m) => if Reserve(b, n, m).1.Ok? { GrantTouchesServed(Enqueue(b, n, m), i); }
      case DoCancel(j) => if b.requests[j].granted { GrantTouchesServed(Return(b, j), i); }
      case DoCharge(_, _) =>
      case DoRelease(n, m) => GrantTouchesServed(Debit(b, n, m), i);
      case DoClose(_) =>
    }
  }

  predicate AllowedAll(b: Allowance, ops: seq<Op>)
    requires b.Sound()
    decreases |ops|
  {
    ops == [] || (Allowed(b, ops[0]) && AllowedAll(Apply(b, ops[0]), ops[1..]))
  }

  function Run(b: Allowance, ops: seq<Op>): (r: Allowance)
    requires b.Sound() && AllowedAll(b, ops)
    ensures r.Sound()
    decreases |ops|
  {
    if ops == [] then b else Run(Apply(b, ops[0]), ops[1..])
  }

  lemma {:induction false} RunKeepsValid(b: Allowance, ops: seq<Op>)
    requires b.Valid() && AllowedAll(b, ops)
    ensures Run(b, ops).Valid()
    decreases |ops|
  {
    if ops != [] {
      OpKeepsValid(b, ops[0]);
      RunKeepsValid(Apply(b, ops[0]), ops[1..]);
    }
  }

  /** No waiting request was overtaken by a later one, and a waiting request implies capacity is held. */
  ghost predicate NoneOvertaken(b: Allowance) {
    && Increasing(b.grants)
    && (forall i, j :: 0 <= i < j < |b.requests| && !b.requests[i].ready ==> j !in b.grants && !b.requests[j].granted)
    && (b.queue != [] ==> b.items > 0 || b.bytes > 0)
  }

  lemma ValidNoneOvertaken(b: Allowance)
    requires b.Valid()
    ensures NoneOvertaken(b)
  {
    forall i, j | 0 <= i < j < |b.requests| && !b.requests[i].ready
      ensures j !in b.grants && !b.requests[j].granted
    {
      assert b.SoundRequest(i) && b.SoundRequest(j);
      var q :| 0 <= q < |b.queue| && b.queue[q] == i;
    }
  }

  /** Grants are in arrival order in every run of a new budget. */
  lemma ArrivalOrder(maxItems: int, maxBytes: int, ops: seq<Op>)
    requires AllowedAll(New(maxItems, maxBytes), ops)
    ensures NoneOvertaken(Run(New(maxItems, maxBytes), ops))
  {
    RunKeepsValid(New(maxItems, maxBytes), ops);
    ValidNoneOvertaken(Run(New(maxItems, maxBytes), ops));
  }

  /** No wake-up is lost: once everything held is returned, the queue gets shorter. */
  lemma ReturningAllServes(b: Allowance)
    requires b.Valid() && b.queue != []
    ensures |Release(b, b.items, b.bytes).queue| < |b.queue|
    ensures b.queue[0] in Release(b, b.items, b.bytes).grants
  {
    var d := Debit(b, b.items, b.bytes);
    assert d.SoundRequest(d.queue[0]) && d.queue[0] in d.queue;
    var n := GrantServesPrefix(d);
    assert d.queue[..n][0] == d.queue[0];
    assert Grant(d).grants[|d.grants|] == d.queue[0];
  }

  /**
   Cancelling a waiter does not run the grant loop. The head stays blocked exactly
   unless the head itself is the one cancelled and the waiter behind it fits.
   */
  lemma CancelWaiterBlocked(b: Allowance, i: nat)
    requires b.Valid() && b.HeadBlocked() && i in b.queue
    ensures Cancel(b, i).Valid()
    ensures Cancel(b, i).HeadBlocked() <==>
      !(i == b.queue[0] && |b.queue| > 1 && b.Fits(b.requests[b.queue[1]]))
  {
    OpKeepsValid(b, DoCancel(i));
    assert b.SoundRequest(i);
    var c := Withdraw(b, i);
    assert c.queue != [] ==> c.queue[0] != i && c.requests[c.queue[0]] == b.requests[c.queue[0]];
  }

  /** A request that finds no queue and fits is granted at once. */
  lemma ReserveAtOnce(b: Allowance, items: nat, bytes: nat)
    requires b.Valid() && b.closed.None? && b.queue == []
    requires b.items + items <= b.maxItems && b.bytes + bytes <= b.maxBytes && b.items >= 0 && b.bytes >= 0
    ensures Reserve(b, items, bytes) == (GrantHead(Enqueue(b, items, bytes)), Ok(|b.requests|))
  {
    var e := Enqueue(b, items, bytes);
    var g := GrantHead(e);
    assert e.queue == [|b.requests|] && !e.HeadBlocked() && g.queue == [];
    assert Grant(e) == Grant(g) && Grant(g) == g;
  }

  /** A request that finds a blocked queue, or does not fit, waits. */
  lemma ReserveWaits(b: Allowance, items: nat, bytes: nat)
    requires b.Valid() && b.closed.None? && b.HeadBlocked()
    requires items <= b.maxItems && bytes <= b.maxBytes
    requires b.queue != [] || b.items + items > b.maxItems || b.bytes + bytes > b.maxBytes
    ensures Reserve(b, items, bytes) == (Enqueue(b, items, bytes), Ok(|b.requests|))
  {
    var e := Enqueue(b, items, bytes);
    assert e.HeadBlocked();
  }

  /**
   The whole failing family: a request that does not fit what is left, and behind it one
   that does. Cancelling the first leaves the second queued, though it fits.
   */
  lemma CancelledHeadLeavesFittingWaiter(a: Allowance, items: nat, bytes: nat, lessItems: nat, lessBytes: nat)
    requires a.Valid() && a.closed.None? && a.queue == [] && a.items >= 0 && a.bytes >= 0
    requires items <= a.maxItems && bytes <= a.maxBytes && (a.items + items > a.maxItems || a.bytes + bytes > a.maxBytes)
    requires a.items + lessItems <= a.maxItems && a.bytes + lessBytes <= a.maxBytes
    ensures
      var b := Reserve(a, items, bytes).0;
      var c := Reserve(b, lessItems, lessBytes).0;
      var head := |a.requests|;
      && b.Valid() && c.Valid() && c.HeadBlocked() && c.queue == [head, head + 1]
      && Cancel(c, head).Valid() && Cancel(c, head).queue == [head + 1] && !Cancel(c, head).HeadBlocked()
  {
    ReserveWaits(a, items, bytes);
    OpKeepsValid(a, DoReserve(items, bytes));
    var b := Reserve(a, items, bytes).0;
    ReserveWaits(b, lessItems, lessBytes);
    OpKeepsValid(b, DoReserve(lessItems, lessBytes));
    CancelWaiterBlocked(Reserve(b, lessItems, lessBytes).0, |a.requests|);
  }

  // ---- what is answered -----------------------------------------------------------------------

  /**
   A reservation is taken exactly when its sizes make sense, the budget is open and the whole
   budget could hold it. A refused one changes nothing, and says which of the three failed first.
   */
  lemma ReserveRefuses(b: Allowance, items: int, bytes: int)
    requires b.Sound()
    ensures
      var (c, answer) := Reserve(b, items, bytes);
      && (answer.Ok? <==> items >= 0 && bytes >= 0 && b.closed.None? && items <= b.maxItems && bytes <= b.maxBytes)
      && (answer.Ok? ==> answer.value == |b.requests| && |c.requests| == |b.requests| + 1)
      && (answer.Err? ==> c == b)
      && (answer == Err(InvalidStream) <== items < 0 || bytes < 0)
      && (items >= 0 && bytes >= 0 && b.closed.Some? ==> answer == Err(b.closed.value))
      && (items >= 0 && bytes >= 0 && b.closed.None? && (items > b.maxItems || bytes > b.maxBytes) ==> answer == Err(LimitExceeded))
  {
  }

  /** What a request that was refused is told. */
  predicate RefusedWith(b: Allowance, i: nat, e: StreamError) {
    i < |b.requests| && b.requests[i].ready && b.requests[i].Failure() == Some(e)
  }

  /** Whoever waits when an open budget is closed is told the cause; nobody is told anything else by it. */
  lemma CloseTells(b: Allowance, cause: Option<StreamError>, i: nat)
    requires b.Valid() && b.closed.None? && i < |b.requests|
    ensures
      var c := Close(b, cause);
      && (!b.requests[i].ready ==> RefusedWith(c, i, match cause case Some(e) => e case None => StreamClosed))
      && (b.requests[i].ready ==> c.requests[i] == b.requests[i])
      && c.queue == [] && c.grants == b.grants
  {
    assert b.SoundRequest(i);
  }

  /** From then on nothing is granted, and every reservation that makes sense is refused with that cause. */
  lemma ClosedRefuses(b: Allowance, e: StreamError, items: nat, bytes: nat)
    requires b.Sound() && b.closed == Some(e)
    ensures Reserve(b, items, bytes) == (b, Err(e))
  {
  }

  lemma ClosedStays(b: Allowance, op: Op, e: StreamError)
    requires b.Valid() && Allowed(b, op) && b.closed == Some(e)
    ensures Apply(b, op).closed == Some(e) && Apply(b, op).grants == b.grants
    ensures |b.requests| == |Apply(b, op).requests|
    ensures forall i, why :: RefusedWith(b, i, why) ==> RefusedWith(Apply(b, op), i, why)
    ensures op.DoClose? ==> Apply(b, op) == b
  {
    hide Enqueue;
    forall i, why | RefusedWith(b, i, why) ensures RefusedWith(Apply(b, op), i, why) {
      assert b.SoundRequest(i);
      OpNeverReopens(b, op, i);
    }
    match op {
      case DoCancel(i) => if b.requests[i].granted { var d := Return(b, i); }
      case _ =>
    }
  }

  /**
   Closing is for good. In every run after an open budget is closed, whoever was waiting stays
   refused with the cause, every later reservation of any size is refused with it, nothing is
   granted, and a second close changes nothing. Without a cause it is that the stream closed.
   */
  lemma {:induction false} ClosedForGood(b: Allowance, ops: seq<Op>, e: StreamError)
    requires b.Valid() && b.closed == Some(e) && AllowedAll(b, ops)
    ensures
      var r := Run(b, ops);
      && r.closed == Some(e) && r.grants == b.grants
      && (forall i, why :: RefusedWith(b, i, why) ==> RefusedWith(r, i, why))
      && (forall items: nat, bytes: nat :: Reserve(r, items, bytes) == (r, Err(e)))
    decreases |ops|
  {
    if ops != [] {
      ClosedStays(b, ops[0], e);
      OpKeepsValid(b, ops[0]);
      ClosedForGood(Apply(b, ops[0]), ops[1..], e);
    }
  }

  lemma CloseForGood(b: Allowance, cause: Option<StreamError>, ops: seq<Op>)
    requires b.Valid() && b.closed.None? && AllowedAll(Close(b, cause), ops)
    ensures
      var e := match cause case Some(e) => e case None => StreamClosed;
      var r := Run(Close(b, cause), ops);
      && (forall i :: 0 <= i < |b.requests| && !b.requests[i].ready ==> RefusedWith(r, i, e))
      && (forall items: nat, bytes: nat :: Reserve(r, items, bytes).1 == Err(e))
      && r.grants == b.grants
  {
    var e := match cause case Some(e) => e case None => StreamClosed;
    var c := Close(b, cause);
    OpKeepsValid(b, DoClose(cause));
    hide Close;
    forall i | 0 <= i < |b.requests| && !b.requests[i].ready ensures RefusedWith(c, i, e) {
      CloseTells(b, cause, i);
    }
    ClosesWith(b, cause);
    ClosedForGood(c, ops, e);
    hide Reserve, Run, RefusedWith;
  }

  lemma ClosesWith(b: Allowance, cause: Option<StreamError>)
    requires b.Sound() && b.closed.None?
    ensures Close(b, cause).closed == Some(match cause case Some(e) => e case None => StreamClosed)
    ensures Close(b, cause).grants == b.grants
  {
  }
}
