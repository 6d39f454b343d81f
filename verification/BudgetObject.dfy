/**
 The budget and its waiters as the objects they are (stream_budget.go): one mutex
 section is one method, and each method is proved to be one function of `Budget`.
 */
module BudgetObject {
  import opened Wrappers
  import opened Allowances = Budget

  /** A reservation, waiting or decided. `ready` is whether its channel is closed. */
  class BudgetWaiter {
    const items: int
    const bytes: int
    var ready: bool
    var granted: bool
    var err: Option<StreamError>

    constructor (items: int, bytes: int)
      ensures Value() == Request(items, bytes, false, false, None)
    {
      this.items, this.bytes := items, bytes;
      ready, granted, err := false, false, None;
    }

    function Value(): Request
      reads this
    {
      Request(items, bytes, ready, granted, err)
    }

    /** Closing a closed channel panics, so this may be called at most once. */
    method CloseReady()
      requires !ready
      modifies this`ready
      ensures ready
    {
      ready := true;
    }

    method Failure() returns (e: Option<StreamError>)
      ensures e == Value().Failure()
      ensures e.None? <==> granted
      ensures !granted ==> e == Some(match err case Some(why) => why case None => StreamClosed)
    {
      if granted {
        return None;
      }
      if err.Some? {
        return err;
      }
      return Some(StreamClosed);
    }
  }

  class Budget {
    const maxItems: int
    const maxBytes: int
    var items: int
    var bytes: int
    var waiters: seq<BudgetWaiter>
    var closed: Option<StreamError>

    ghost var arrivals: seq<BudgetWaiter>
    ghost var queue: seq<nat>
    ghost var grants: seq<nat>

    ghost function Model(): (b: Allowance)
      reads this, arrivals
      ensures |b.requests| == |arrivals|
    {
      Allowance(maxItems, maxBytes, items, bytes,
                seq(|arrivals|, i requires 0 <= i < |arrivals| reads this, arrivals => arrivals[i].Value()),
                queue, grants, closed)
    }

    /** The waiters slice holds the queued arrivals, and arrivals are distinct objects. */
    ghost predicate Linked()
      reads this
    {
      && (forall i, j :: 0 <= i < j < |arrivals| ==> arrivals[i] != arrivals[j])
      && |waiters| == |queue|
      && (forall k :: 0 <= k < |queue| ==> queue[k] < |arrivals| && waiters[k] == arrivals[queue[k]])
    }

    ghost predicate Valid()
      reads this, arrivals
    {
      Linked() && Model().Valid()
    }

    constructor (maxItems: int, maxBytes: int)
      ensures Valid() && Model() == New(maxItems, maxBytes) && arrivals == []
      ensures this.maxItems == maxItems && (maxBytes >= 0 ==> this.maxBytes == maxBytes) && (maxBytes < 0 ==> this.maxBytes == 0)
      ensures items == 0 && bytes == 0 && closed.None? && waiters == []
    {
      this.maxItems := maxItems;
      this.maxBytes := if maxBytes < 0 then 0 else maxBytes;
      items, bytes, waiters, closed := 0, 0, [], None;
      arrivals, queue, grants := [], [], [];
    }

    /** One turn of the grant loop. */
    method ServeHead()
      requires Linked() && Model().Sound() && waiters != []
      modifies this`items, this`bytes, this`waiters, this`queue, this`grants, waiters[0]
      ensures Linked() && Model() == GrantHead(old(Model()))
    {
      ghost var before := Model();
      Waits(before, 0);
      hide Allowance.Sound, Grant;
      var waiter := waiters[0];
      assert waiter.Value() == before.requests[queue[0]];
      items := items + waiter.items;
      bytes := bytes + waiter.bytes;
      waiter.granted := true;
      waiters := waiters[1..];
      waiter.CloseReady();
      grants := grants + [queue[0]];
      queue := queue[1..];
      assert Model().requests == GrantHead(before).requests;
    }

    /** The grant loop. It ends at the first waiter there is no room for. */
    method GrantLocked()
      requires Linked() && Model().Sound()
      modifies this`items, this`bytes, this`waiters, this`queue, this`grants, arrivals
      ensures Linked() && Model() == Grant(old(Model()))
    {
      while |waiters| > 0
        invariant Linked() && Model().Sound() && Grant(Model()) == Grant(old(Model()))
        decreases |waiters|
      {
        ghost var before := Model();
        assert waiters[0].Value() == before.requests[before.queue[0]];
        if items + waiters[0].items > maxItems || bytes + waiters[0].bytes > maxBytes {
          assert before.HeadBlocked();
          return;
        }
        assert !before.HeadBlocked();
        ServeHead();
      }
    }

    /** A waiter at the back of the queue; nothing is granted yet. */
    method AddWaiter(items: int, bytes: int) returns (w: BudgetWaiter)
      requires Linked() && Model().Sound() && closed.None?
      requires 0 <= items <= maxItems && 0 <= bytes <= maxBytes
      modifies this`waiters, this`queue, this`arrivals
      ensures Linked() && Model() == Enqueue(old(Model()), items, bytes)
      ensures fresh(w) && arrivals == old(arrivals) + [w]
    {
      hide Grant, Allowance.Sound;
      ghost var before := Model();
      w := new BudgetWaiter(items, bytes);
      queue := queue + [|arrivals|];
      arrivals := arrivals + [w];
      waiters := waiters + [w];
      assert Model().requests == Enqueue(before, items, bytes).requests;
    }

    /** A request joins the queue, unless it could never be granted, and the queue is served. */
    method Reserve(items: int, bytes: int) returns (waiter: Result<BudgetWaiter, StreamError>)
      requires Valid()
      modifies this`items, this`bytes, this`waiters, this`queue, this`grants, this`arrivals, arrivals
      ensures Valid() && Model() == Allowances.Reserve(old(Model()), items, bytes).0
      ensures waiter.Err? ==>
        arrivals == old(arrivals) && Allowances.Reserve(old(Model()), items, bytes).1 == Err(waiter.error)
      ensures waiter.Ok? ==>
        && fresh(waiter.value) && arrivals == old(arrivals) + [waiter.value]
        && Allowances.Reserve(old(Model()), items, bytes).1 == Ok(|old(arrivals)|)
    {
      ghost var before := Model();
      OpKeepsValid(before, DoReserve(items, bytes));
      hide Grant, Enqueue, Allowance.Sound, Allowance.HeadBlocked;
      if items < 0 || bytes < 0 {
        return Err(InvalidStream);
      }
      if closed.Some? {
        return Err(closed.value);
      }
      if items > maxItems || bytes > maxBytes {
        return Err(LimitExceeded);
      }
      var w := AddWaiter(items, bytes);
      GrantLocked();
      return Ok(w);
    }

    /** The waiter at this place in the queue gives up. Nothing is granted. */
    method RemoveWaiter(k: nat)
      requires Linked() && Model().Sound() && k < |waiters|
      modifies this`waiters, this`queue, waiters[k]
      ensures Linked() && Model() == Withdraw(old(Model()), old(queue[k]))
    {
      hide Grant, Withdraw, Allowance.Sound, Allowance.Ordered;
      ghost var before := Model();
      ghost var i := queue[k];
      WithdrawIs(before, k);
      var waiter := waiters[k];
      assert waiter.Value() == before.requests[i];
      waiters := waiters[..k] + waiters[k + 1..];
      queue := queue[..k] + queue[k + 1..];
      waiter.CloseReady();
      assert Model().requests == before.requests[i := waiter.Value()];
    }

    /** What a granted waiter held is given back; the grant loop has yet to run. */
    method ReturnGranted(waiter: BudgetWaiter, ghost i: nat)
      requires Linked() && Model().Sound() && i < |arrivals| && arrivals[i] == waiter && waiter.granted
      modifies this`items, this`bytes, waiter
      ensures Linked() && Model() == Return(old(Model()), i)
      ensures waiters == old(waiters) && arrivals == old(arrivals)
    {
      hide Allowance.Sound, Grant;
      ghost var before := Model();
      assert before.requests[i] == waiter.Value();
      items := items - waiter.items;
      bytes := bytes - waiter.bytes;
      waiter.granted := false;
      assert Model().requests == Return(before, i).requests;
    }

    /** Where a waiter is in the queue; past its end if it is not there. */
    method PlaceOf(waiter: BudgetWaiter) returns (k: nat)
      ensures k <= |waiters| && waiter !in waiters[..k] && (k < |waiters| ==> waiters[k] == waiter)
    {
      k := 0;
      while k < |waiters|
        invariant k <= |waiters| && waiter !in waiters[..k]
      {
        if waiters[k] == waiter {
          return;
        }
        k := k + 1;
      }
    }

    /** A reservation is given up: granted capacity comes back and is passed on, a place in the queue is left. */
    method Cancel(waiter: BudgetWaiter, ghost i: nat)
      requires Valid() && i < |arrivals| && arrivals[i] == waiter
      modifies this`items, this`bytes, this`waiters, this`queue, this`grants, arrivals
      ensures Valid() && Model() == Allowances.Cancel(old(Model()), i)
    {
      ghost var before := Model();
      OpKeepsValid(before, DoCancel(i));
      hide Grant, Return, Withdraw, Allowance.Valid, Allowance.Sound;
      assert before.requests[i] == waiter.Value();
      if waiter.granted {
        ReturnGranted(waiter, i);
        GrantLocked();
        return;
      }
      var k := PlaceOf(waiter);
      if k < |waiters| {
        assert queue[k] == i;
        RemoveWaiter(k);
      } else {
        assert i !in queue;
      }
    }

    /** The counters go up whatever the ceiling, closed or not. */
    method Charge(items: nat, bytes: nat)
      requires Valid()
      modifies this`items, this`bytes
      ensures Valid() && Model() == Allowances.Charge(old(Model()), items, bytes)
    {
      OpKeepsValid(Model(), DoCharge(items, bytes));
      this.items := this.items + items;
      this.bytes := this.bytes + bytes;
      assert Model().requests == old(Model()).requests;
    }

    /** The counters go down; the grant loop has yet to run. */
    method TakeBack(items: nat, bytes: nat)
      requires Linked() && Model().Sound()
      modifies this`items, this`bytes
      ensures Linked() && Model() == Debit(old(Model()), items, bytes)
    {
      hide Grant, Allowance.Sound;
      this.items := this.items - items;
      this.bytes := this.bytes - bytes;
      assert Model().requests == old(Model()).requests;
    }

    /** Capacity comes back and goes to whoever is next. Giving back more than is held panics. */
    method Release(items: nat, bytes: nat)
      requires Valid() && items <= this.items && bytes <= this.bytes
      modifies this`items, this`bytes, this`waiters, this`queue, this`grants, arrivals
      ensures Valid() && Model() == Allowances.Release(old(Model()), items, bytes)
    {
      OpKeepsValid(Model(), DoRelease(items, bytes));
      hide Grant, Debit, Allowance.Sound, Allowance.HeadBlocked;
      TakeBack(items, bytes);
      GrantLocked();
    }

    /** One waiter is told why, and woken. */
    method Refuse(k: nat, why: StreamError)
      requires Linked() && k < |waiters| && !waiters[k].ready
      modifies waiters[k]
      ensures Linked() && Model() == old(Model()).(requests := old(Model()).requests[queue[k] := Told(old(Model()).requests[queue[k]], why)])
    {
      ghost var before := Model();
      assert waiters[k].Value() == before.requests[queue[k]];
      waiters[k].err := Some(why);
      waiters[k].CloseReady();
      assert Model().requests == before.requests[queue[k] := Told(before.requests[queue[k]], why)];
    }

    /** Each waiter in the queue is. */
    method RefuseAll(why: StreamError)
      requires Linked() && Model().Sound()
      modifies arrivals
      ensures Linked() && arrivals == old(arrivals)
      ensures Model() == old(Model()).(requests := Refused(old(Model()).requests, why))
    {
      ghost var before := Model();
      RefusedIs(before, why);
      hide Allowance.Sound, Refused, Increasing, Told;
      var k := 0;
      while k < |waiters|
        invariant 0 <= k <= |waiters| && Linked() && Model() == before.(requests := Model().requests)
        invariant forall i :: 0 <= i < |before.requests| ==>
          Model().requests[i] == if i in queue[..k] then Told(before.requests[i], why) else before.requests[i]
      {
        Waits(before, k);
        NotYet(queue, k);
        assert waiters[k].Value() == Model().requests[queue[k]];
        Refuse(k, why);
        k := k + 1;
      }
      assert queue[..k] == queue;
      assert Model().requests == Refused(before.requests, why);
    }

    /** Whoever waits is refused, and so is whoever comes later. */
    method Close(cause: Option<StreamError>)
      requires Valid()
      modifies this`closed, this`waiters, this`queue, arrivals
      ensures Valid() && Model() == Allowances.Close(old(Model()), cause)
      ensures arrivals == old(arrivals)
      ensures closed == if old(closed).Some? then old(closed) else Some(match cause case Some(e) => e case None => StreamClosed)
      ensures forall w :: w in arrivals && old(closed).None? && !old(w.ready) ==>
        w.ready && w.Value().Failure() == closed
    {
      ghost var before := Model();
      OpKeepsValid(before, DoClose(cause));
      hide Allowance.Sound, Refused;
      if closed.Some? {
        return;
      }
      var why := if cause.Some? then cause.value else StreamClosed;
      RefuseAll(why);
      closed := Some(why);
      waiters := [];
      queue := [];
      assert Model().requests == Refused(before.requests, why);
      forall i | 0 <= i < |arrivals| && !old(arrivals[i].ready) ensures arrivals[i].ready && arrivals[i].Value().Failure() == Some(why) {
        CloseTells(before, cause, i);
        assert Model().requests[i] == arrivals[i].Value() && before.requests[i] == old(arrivals[i].Value());
      }
    }
  }

  lemma WithdrawIs(b: Allowance, k: nat)
    requires b.Sound() && k < |b.queue|
    ensures b.queue[k] in b.queue && b.queue[k] < |b.requests|
    ensures !b.requests[b.queue[k]].ready && !b.requests[b.queue[k]].granted
    ensures
      var i := b.queue[k];
      Withdraw(b, i) == b.(queue := b.queue[..k] + b.queue[k + 1..], requests := b.requests[i := b.requests[i].(ready := true, granted := false)])
  {
    Waits(b, k);
    WithoutIs(b.queue, k);
  }

  lemma NotYet(queue: seq<nat>, k: nat)
    requires Increasing(queue) && k < |queue|
    ensures queue[k] !in queue[..k] && queue[..k + 1] == queue[..k] + [queue[k]]
  {
  }

  /** A waiter told why it is refused. */
  function Told(r: Request, why: StreamError): Request {
    r.(ready := true, err := Some(why))
  }

  /** Refusing everybody is telling whoever is in the queue. */
  lemma RefusedIs(b: Allowance, why: StreamError)
    requires b.Sound()
    ensures forall i :: 0 <= i < |b.requests| ==>
      Refused(b.requests, why)[i] == if i in b.queue then Told(b.requests[i], why) else b.requests[i]
  {
    forall i | 0 <= i < |b.requests|
      ensures Refused(b.requests, why)[i] == if i in b.queue then Told(b.requests[i], why) else b.requests[i]
    {
      assert b.SoundRequest(i);
    }
  }

  /** A place in the queue names a request that still waits. */
  lemma Waits(b: Allowance, k: nat)
    requires b.Sound() && k < |b.queue|
    ensures Increasing(b.queue) && b.queue[k] in b.queue && b.queue[k] < |b.requests|
    ensures !b.requests[b.queue[k]].ready && !b.requests[b.queue[k]].granted
  {
    assert b.SoundRequest(b.queue[k]);
  }

  /** Removing by position is removing by name, in an increasing queue. */
  lemma {:induction false} WithoutIs(queue: seq<nat>, k: nat)
    requires Increasing(queue) && k < |queue|
    ensures Without(queue, queue[k]) == queue[..k] + queue[k + 1..]
  {
    if k > 0 {
      WithoutIs(queue[1..], k - 1);
      assert queue[..k] + queue[k + 1..] == [queue[0]] + (queue[1..][..k - 1] + queue[1..][k..]);
    }
  }
}
