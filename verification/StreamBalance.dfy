/**
 Conservation of the stream's budget: in every reachable state the budget's items
 and bytes are exactly what its holders hold. A holder is a Write call, the
 coordinator, the packet it has pending, the dispatcher, or one entry of the Read
 queue, of the records channel, or of the packets a Read has just taken.
 */
module StreamBalance {
  import opened Wrappers
  import opened Budget
  import opened Stream

  // ---- stakes ---------------------------------------------------------------------------

  /**
   What one holder has in the budget: nothing, capacity it certainly holds, or a
   reservation that holds capacity exactly once it has been granted.
   */
  datatype Stake = NoStake | Held(items: nat, bytes: nat) | Claim(request: nat, items: nat, bytes: nat)

  function StakeItems(k: Stake, rs: seq<Request>): nat {
    match k
    case NoStake => 0
    case Held(n, _) => n
    case Claim(i, n, _) => if i < |rs| && rs[i].granted then n else 0
  }

  function StakeBytes(k: Stake, rs: seq<Request>): nat {
    match k
    case NoStake => 0
    case Held(_, m) => m
    case Claim(i, _, m) => if i < |rs| && rs[i].granted then m else 0
  }

  function SumItems(ks: seq<Stake>, rs: seq<Request>): nat {
    if ks == [] then 0 else SumItems(ks[..|ks| - 1], rs) + StakeItems(ks[|ks| - 1], rs)
  }

  function SumBytes(ks: seq<Stake>, rs: seq<Request>): nat {
    if ks == [] then 0 else SumBytes(ks[..|ks| - 1], rs) + StakeBytes(ks[|ks| - 1], rs)
  }

  lemma {:induction false} SumUpdate(ks: seq<Stake>, rs: seq<Request>, i: nat, k: Stake)
    requires i < |ks|
    ensures SumItems(ks[i := k], rs) == SumItems(ks, rs) - StakeItems(ks[i], rs) + StakeItems(k, rs)
    ensures SumBytes(ks[i := k], rs) == SumBytes(ks, rs) - StakeBytes(ks[i], rs) + StakeBytes(k, rs)
  {
    var n := |ks| - 1;
    if i == n {
      assert ks[i := k][..n] == ks[..n];
    } else {
      assert ks[i := k][..n] == ks[..n][i := k];
      SumUpdate(ks[..n], rs, i, k);
    }
  }

  predicate Agree(k: Stake, rs: seq<Request>, qs: seq<Request>) {
    StakeItems(k, rs) == StakeItems(k, qs) && StakeBytes(k, rs) == StakeBytes(k, qs)
  }

  /** Two request tables that agree on what the stakes claim give the same sums. */
  lemma {:induction false} SumSame(ks: seq<Stake>, rs: seq<Request>, qs: seq<Request>)
    requires forall i :: 0 <= i < |ks| ==> Agree(ks[i], rs, qs)
    ensures SumItems(ks, rs) == SumItems(ks, qs) && SumBytes(ks, rs) == SumBytes(ks, qs)
  {
    if ks != [] {
      SumSame(ks[..|ks| - 1], rs, qs);
    }
  }

  /** Granting one request raises the sums by what its one claimant claims. */
  lemma {:induction false} SumGrant(ks: seq<Stake>, rs: seq<Request>, qs: seq<Request>, at: nat)
    requires at < |ks| && ks[at].Claim? && ks[at].request < |rs| == |qs|
    requires forall i :: 0 <= i < |ks| && i != at && ks[i].Claim? ==> ks[i].request != ks[at].request
    requires forall r :: 0 <= r < |rs| && r != ks[at].request ==> qs[r].granted == rs[r].granted
    requires !rs[ks[at].request].granted && qs[ks[at].request].granted
    ensures SumItems(ks, qs) == SumItems(ks, rs) + ks[at].items
    ensures SumBytes(ks, qs) == SumBytes(ks, rs) + ks[at].bytes
  {
    var n := |ks| - 1;
    if at == n {
      SumSame(ks[..n], rs, qs);
    } else {
      SumGrant(ks[..n], rs, qs, at);
    }
  }

  // ---- balance ----------------------------------------------------------------------------

  /** Each claim names its own request, at its own cost. */
  predicate Claimant(b: Allowance, ks: seq<Stake>, i: nat)
    requires i < |ks|
  {
    ks[i].Claim? ==>
      && ks[i].request < |b.requests|
      && b.requests[ks[i].request].items == ks[i].items
      && b.requests[ks[i].request].bytes == ks[i].bytes
  }

  predicate Claims(k: Stake, request: nat) {
    k.Claim? && k.request == request
  }

  ghost predicate Claimed(ks: seq<Stake>, request: nat) {
    exists i :: 0 <= i < |ks| && Claims(ks[i], request)
  }

  lemma StillClaimed(ks: seq<Stake>, at: nat, k: Stake, request: nat)
    requires Claimed(ks, request) && at < |ks| && !Claims(ks[at], request)
    ensures Claimed(ks[at := k], request)
  {
    var i :| 0 <= i < |ks| && Claims(ks[i], request);
    assert ks[at := k][i] == ks[i];
  }

  ghost predicate Covered(b: Allowance, ks: seq<Stake>) {
    && (forall i :: 0 <= i < |ks| ==> Claimant(b, ks, i))
    && (forall i, j :: 0 <= i < j < |ks| && ks[i].Claim? && ks[j].Claim? ==> ks[i].request != ks[j].request)
    && (forall q :: 0 <= q < |b.queue| ==> Claimed(ks, b.queue[q]))
  }

  /** The budget's two counters are what the stakes hold plus `items` and `bytes` held elsewhere. */
  ghost predicate Balanced(b: Allowance, ks: seq<Stake>, items: int, bytes: int) {
    && b.Sound()
    && Covered(b, ks)
    && b.items == SumItems(ks, b.requests) + items
    && b.bytes == SumBytes(ks, b.requests) + bytes
  }

  lemma GrantHeadBalanced(b: Allowance, ks: seq<Stake>, items: int, bytes: int)
    requires Balanced(b, ks, items, bytes) && b.queue != []
    ensures Balanced(GrantHead(b), ks, items, bytes)
  {
    var g := GrantHead(b);
    assert Claimed(ks, b.queue[0]);
    var at :| 0 <= at < |ks| && Claims(ks[at], b.queue[0]);
    assert b.queue[0] in b.queue && b.SoundRequest(b.queue[0]) && Claimant(b, ks, at);
    SumGrant(ks, b.requests, g.requests, at);
    forall i | 0 <= i < |ks| ensures Claimant(g, ks, i) { assert Claimant(b, ks, i); }
    forall q | 0 <= q < |g.queue| ensures Claimed(ks, g.queue[q]) {
      assert g.queue[q] == b.queue[q + 1];
    }
  }

  lemma {:induction false} GrantBalanced(b: Allowance, ks: seq<Stake>, items: int, bytes: int)
    requires Balanced(b, ks, items, bytes)
    ensures Balanced(Grant(b), ks, items, bytes)
    decreases |b.queue|
  {
    if !b.HeadBlocked() {
      GrantHeadBalanced(b, ks, items, bytes);
      GrantBalanced(GrantHead(b), ks, items, bytes);
    }
  }

  // ---- what one holder does ------------------------------------------------------------------

  /** A holder replaces its stake by one with the same capacity, or hands it elsewhere. */
  lemma MoveBalanced(b: Allowance, ks: seq<Stake>, items: int, bytes: int, at: nat, k: Stake, items': int, bytes': int)
    requires Balanced(b, ks, items, bytes) && at < |ks|
    requires !k.Claim? && (ks[at].Claim? ==> ks[at].request < |b.requests| && b.requests[ks[at].request].ready)
    requires StakeItems(ks[at], b.requests) + items == StakeItems(k, b.requests) + items'
    requires StakeBytes(ks[at], b.requests) + bytes == StakeBytes(k, b.requests) + bytes'
    ensures Balanced(b, ks[at := k], items', bytes')
  {
    var js := ks[at := k];
    SumUpdate(ks, b.requests, at, k);
    forall i | 0 <= i < |js| ensures Claimant(b, js, i) { assert Claimant(b, ks, i); }
    forall q | 0 <= q < |b.queue| ensures Claimed(js, b.queue[q]) {
      assert Claimed(ks, b.queue[q]) && b.queue[q] in b.queue && b.SoundRequest(b.queue[q]);
      StillClaimed(ks, at, k, b.queue[q]);
    }
  }

  /** A holder without a stake reserves, and the grant loop runs. */
  lemma ReserveBalanced(b: Allowance, ks: seq<Stake>, items: int, bytes: int, at: nat, n: nat, m: nat)
    requires Balanced(b, ks, items, bytes) && at < |ks| && ks[at] == NoStake
    ensures
      var (c, r) := Reserve(b, n, m);
      Balanced(c, ks[at := if r.Ok? then Claim(r.value, n, m) else NoStake], items, bytes)
  {
    var (c, r) := Reserve(b, n, m);
    if r.Ok? {
      var e := Enqueue(b, n, m);
      var js := ks[at := Claim(|b.requests|, n, m)];
      SumSame(ks, b.requests, e.requests) by { ClaimsBelow(b, ks, e.requests); }
      SumUpdate(ks, e.requests, at, js[at]);
      forall i | 0 <= i < |js| ensures Claimant(e, js, i) { assert i != at ==> Claimant(b, ks, i); }
      forall i, j | 0 <= i < j < |js| && js[i].Claim? && js[j].Claim? ensures js[i].request != js[j].request {
        assert Claimant(b, ks, i) && Claimant(b, ks, j);
      }
      forall q | 0 <= q < |e.queue| ensures Claimed(js, e.queue[q]) {
        if q == |b.queue| {
          assert Claims(js[at], e.queue[q]);
        } else {
          StillClaimed(ks, at, js[at], b.queue[q]);
        }
      }
      GrantBalanced(e, js, items, bytes);
    } else {
      assert ks[at := NoStake] == ks;
    }
  }

  lemma ClaimsBelow(b: Allowance, ks: seq<Stake>, rs: seq<Request>)
    requires Covered(b, ks) && |b.requests| <= |rs|
    requires forall r :: 0 <= r < |b.requests| ==> rs[r].granted == b.requests[r].granted
    ensures forall i :: 0 <= i < |ks| ==> Agree(ks[i], b.requests, rs)
  {
    forall i | 0 <= i < |ks| ensures Agree(ks[i], b.requests, rs) {
      assert Claimant(b, ks, i);
    }
  }

  lemma SameCover(b: Allowance, ks: seq<Stake>, c: Allowance)
    requires Covered(b, ks) && c.requests == b.requests && c.queue == b.queue
    ensures Covered(c, ks)
  {
    forall i | 0 <= i < |ks| ensures Claimant(c, ks, i) { assert Claimant(b, ks, i); }
    forall q | 0 <= q < |c.queue| ensures Claimed(ks, c.queue[q]) { assert Claimed(ks, b.queue[q]); }
  }

  /** Capacity held, by a stake or elsewhere, is released, and the grant loop runs. */
  lemma ReleaseBalanced(b: Allowance, ks: seq<Stake>, items: int, bytes: int, n: nat, m: nat)
    requires Balanced(b, ks, items, bytes)
    ensures Balanced(Release(b, n, m), ks, items - n, bytes - m)
  {
    var d := Debit(b, n, m);
    SameCover(b, ks, d);
    GrantBalanced(d, ks, items - n, bytes - m);
  }

  /** A claimant cancels, whether or not it was granted meanwhile. */
  lemma CancelBalanced(b: Allowance, ks: seq<Stake>, items: int, bytes: int, at: nat)
    requires Balanced(b, ks, items, bytes) && at < |ks| && ks[at].Claim? && ks[at].request < |b.requests|
    ensures Balanced(Cancel(b, ks[at].request), ks[at := NoStake], items, bytes)
  {
    var i := ks[at].request;
    var js := ks[at := NoStake];
    assert Claimant(b, ks, at) && b.SoundRequest(i);
    SumUpdate(ks, b.requests, at, NoStake);
    if b.requests[i].granted {
      var c := Return(b, i);
      OthersAgree(b, ks, at, js, c.requests);
      SumSame(js, b.requests, c.requests);
      StillCovered(b, ks, at, c);
      GrantBalanced(c, js, items, bytes);
    } else if i in b.queue {
      var c := Withdraw(b, i);
      OthersAgree(b, ks, at, js, c.requests);
      SumSame(js, b.requests, c.requests);
      StillCovered(b, ks, at, c);
    } else {
      StillCovered(b, ks, at, b);
    }
  }

  lemma OthersAgree(b: Allowance, ks: seq<Stake>, at: nat, js: seq<Stake>, rs: seq<Request>)
    requires Covered(b, ks) && at < |ks| && ks[at].Claim? && |rs| == |b.requests|
    requires forall r :: 0 <= r < |rs| && r != ks[at].request ==> rs[r] == b.requests[r]
    requires js == ks[at := NoStake]
    ensures forall i :: 0 <= i < |js| ==> Agree(js[i], b.requests, rs)
  {
    forall i | 0 <= i < |js| ensures Agree(js[i], b.requests, rs) {
      if i != at { assert Claimant(b, ks, i); }
    }
  }

  lemma StillCovered(b: Allowance, ks: seq<Stake>, at: nat, c: Allowance)
    requires Covered(b, ks) && at < |ks| && ks[at].Claim? && |c.requests| == |b.requests|
    requires forall r :: 0 <= r < |c.requests| && r != ks[at].request ==> c.requests[r] == b.requests[r]
    requires forall q :: 0 <= q < |c.queue| ==> c.queue[q] in b.queue && c.queue[q] != ks[at].request
    ensures Covered(c, ks[at := NoStake])
  {
    var js := ks[at := NoStake];
    forall i | 0 <= i < |js| ensures Claimant(c, js, i) { if i != at { assert Claimant(b, ks, i); } }
    forall q | 0 <= q < |c.queue| ensures Claimed(js, c.queue[q]) {
      var p :| 0 <= p < |b.queue| && b.queue[p] == c.queue[q];
      StillClaimed(ks, at, NoStake, b.queue[p]);
    }
  }

  /** Held capacity goes from a holder into a queue. */
  lemma Deposit(b: Allowance, ks: seq<Stake>, items: int, bytes: int, at: nat)
    requires Balanced(b, ks, items, bytes) && at < |ks| && ks[at].Held?
    ensures Balanced(b, ks[at := NoStake], items + ks[at].items, bytes + ks[at].bytes)
  {
    MoveBalanced(b, ks, items, bytes, at, NoStake, items + ks[at].items, bytes + ks[at].bytes);
  }

  /** A holder releases what it holds. */
  lemma Refund(b: Allowance, ks: seq<Stake>, items: int, bytes: int, at: nat)
    requires Balanced(b, ks, items, bytes) && at < |ks| && ks[at].Held?
    ensures Balanced(Release(b, ks[at].items, ks[at].bytes), ks[at := NoStake], items, bytes)
  {
    Deposit(b, ks, items, bytes, at);
    ReleaseBalanced(b, ks[at := NoStake], items + ks[at].items, bytes + ks[at].bytes, ks[at].items, ks[at].bytes);
  }

  /** A claimant notices that its reservation was decided. */
  lemma Notice(b: Allowance, ks: seq<Stake>, items: int, bytes: int, at: nat)
    requires Balanced(b, ks, items, bytes) && at < |ks| && ks[at].Claim?
    requires ks[at].request < |b.requests| && b.requests[ks[at].request].ready
    ensures
      var k := if b.requests[ks[at].request].granted then Held(ks[at].items, ks[at].bytes) else NoStake;
      Balanced(b, ks[at := k], items, bytes)
  {
    var k := if b.requests[ks[at].request].granted then Held(ks[at].items, ks[at].bytes) else NoStake;
    MoveBalanced(b, ks, items, bytes, at, k, items, bytes);
  }

  lemma ChargeBalanced(b: Allowance, ks: seq<Stake>, items: int, bytes: int, n: nat, m: nat)
    requires Balanced(b, ks, items, bytes)
    ensures Balanced(Charge(b, n, m), ks, items + n, bytes + m)
  {
    ChargeKeepsSound(b, n, m);
    SameCover(b, ks, Charge(b, n, m));
  }

  lemma CloseBalanced(b: Allowance, ks: seq<Stake>, items: int, bytes: int, cause: Option<StreamError>)
    requires Balanced(b, ks, items, bytes)
    ensures Balanced(Close(b, cause), ks, items, bytes)
  {
    var c := Close(b, cause);
    forall i | 0 <= i < |ks| ensures Claimant(c, ks, i) { assert Claimant(b, ks, i); }
    ClaimsBelow(b, ks, c.requests);
    SumSame(ks, b.requests, c.requests);
  }

  // ---- the stream's holders --------------------------------------------------------------------

  const TURN := 0        // the coordinator, for the call it is processing
  const WORK := 1        // the coordinator, for the record or arrival it is submitting
  const PENDING := 2
  const DISPATCHER := 3
  const CALLS := 4

  predicate ForCall(next: Next) {
    next.RefuseNext? || next.ForgetNext? || next.SentRawNext? || next.SentNext?
  }

  function TurnStake(work: Work): Stake {
    match work
    case Encoding(_) => Held(1, 0)
    case Beginning(_, _, _) => Held(1, 0)
    case Handing(_, _, _) => Held(1, 0)
    case Awaiting(_, _, _) => Held(1, 0)
    case Releasing(_) => Held(1, 0)
    case Observing(_, next) => if ForCall(next) then Held(1, 0) else NoStake
    case ObserveWait(_, _, next) => if ForCall(next) then Held(1, 0) else NoStake
    case ObserveSend(_, next) => if ForCall(next) then Held(1, 0) else NoStake
    case ObserveFailed(next) => if ForCall(next) then Held(1, 0) else NoStake
    case _ => NoStake
  }

  function WorkStake(work: Work): Stake {
    match work
    case ObserveWait(input, request, _) => Claim(request, 1, input.bytes)
    case ObserveSend(record, _) => Held(1, record.input.bytes)
    case HandingOver(arrival, _) => Held(1, arrival.size)
    case _ => NoStake
  }

  function PendingStake(p: Option<Pending>): Stake {
    if p.Some? then Claim(p.value.request, 1, p.value.arrival.size) else NoStake
  }

  function DispatcherStake(d: Dispatcher): Stake {
    if d.Delivering? then Held(1, d.record.input.bytes) else NoStake
  }

  function CallStake(c: Call): Stake {
    match c.phase
    case Acquiring(request) => Claim(request, 1, 0)
    case Offering => Held(1, 0)
    case _ => NoStake
  }

  function Stakes(s: State): (ks: seq<Stake>)
    ensures |ks| == CALLS + |s.out.calls|
    ensures ks[TURN] == TurnStake(s.work) && ks[WORK] == WorkStake(s.work)
    ensures ks[PENDING] == PendingStake(s.inb.pending) && ks[DISPATCHER] == DispatcherStake(s.rec.dispatcher)
    ensures forall w :: 0 <= w < |s.out.calls| ==> ks[CALLS + w] == CallStake(s.out.calls[w])
  {
    [TurnStake(s.work), WorkStake(s.work), PendingStake(s.inb.pending), DispatcherStake(s.rec.dispatcher)]
    + seq(|s.out.calls|, w requires 0 <= w < |s.out.calls| => CallStake(s.out.calls[w]))
  }

  function Sizes(items: seq<Arrival>): nat {
    if items == [] then 0 else items[0].size + Sizes(items[1..])
  }

  function RecordBytes(records: seq<Record>): nat {
    if records == [] then 0 else records[0].input.bytes + RecordBytes(records[1..])
  }

  lemma {:induction false} SizesAppend(items: seq<Arrival>, a: Arrival)
    ensures Sizes(items + [a]) == Sizes(items) + a.size
  {
    if items != [] {
      assert (items + [a])[1..] == items[1..] + [a];
      SizesAppend(items[1..], a);
    }
  }

  lemma {:induction false} SizesRemove(items: seq<Arrival>, k: nat)
    requires k < |items|
    ensures Sizes(items[..k] + items[k + 1..]) == Sizes(items) - items[k].size
  {
    if k == 0 {
      assert items[..0] + items[1..] == items[1..];
    } else {
      assert (items[..k] + items[k + 1..])[1..] == items[1..][..k - 1] + items[1..][k..];
      SizesRemove(items[1..], k - 1);
    }
  }

  lemma {:induction false} RecordBytesAppend(records: seq<Record>, r: Record)
    ensures RecordBytes(records + [r]) == RecordBytes(records) + r.input.bytes
  {
    if records != [] {
      assert (records + [r])[1..] == records[1..] + [r];
      RecordBytesAppend(records[1..], r);
    }
  }

  /** What lies in the Read queue, in the records channel, and with Reads that have yet to release it. */
  function QueuedItems(s: State): nat {
    |s.inb.queue| + |s.inb.taken| + |s.rec.channel|
  }

  function QueuedBytes(s: State): nat {
    Sizes(s.inb.queue) + Sizes(s.inb.taken) + RecordBytes(s.rec.channel)
  }

  /** Everything the stream holds, as one sum over its holders. */
  ghost predicate Conserved(s: State) {
    Balanced(s.budget, Stakes(s), QueuedItems(s), QueuedBytes(s))
  }
}
