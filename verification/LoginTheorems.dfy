/**
 What a login between honest drivers comes to, in every interleaving: the switch
 offsets agree, no run goes on forever, and a run that can go no further has finished
 on both sides, in play, with one secret and one threshold.
 */
module LoginTheorems {
  import opened Wrappers
  import opened Login
  import opened LoginScript
  import opened LoginSafe

  /** Both ends of a direction that have switched did so at the same byte, with the same key. */
  predicate SwitchedAlike(w: Wire) {
    w.encrypt.Some? && w.decrypt.Some? ==> w.encrypt == w.decrypt
  }

  /** In every reachable state nothing has failed and the two ends of each direction agree. */
  lemma EveryLogin(setup: Setup, steps: seq<Step>)
    requires setup.KeyPair() && CanAll(Init(setup), steps)
    ensures
      var s := DoAll(Init(setup), steps);
      && s.failed.None? && SwitchedAlike(s.up) && SwitchedAlike(s.down)
      && (s.up.decrypt.Some? && s.down.decrypt.Some? ==> s.up.decrypt.value.key == s.down.decrypt.value.key)
  {
    InitFine(setup);
    RunFine(Init(setup), steps);
    var s := DoAll(Init(setup), steps);
    hide Grounded, ClientKeeps, ServerKeeps, CanAll, DoAll, Init;
    assert s.failed.None? by { FineStands(s); }
    var secret :| Keyed(s, secret);
  }

  lemma UpWhole(s: State, secret: Bytes, k: nat, offset: nat)
    requires Grounded(s) && Keyed(s, secret) && ClientKeeps(s.setup, s.client, ClientPlace(s)) && k < |s.up.frames|
    requires s.up.frames[k].start <= offset < s.up.frames[k].start + s.up.frames[k].size
    ensures CipherAt(s.up.encrypt, offset) == if s.setup.online && k >= 2 then s.up.encrypt else None
    ensures s.setup.online && k >= 2 ==> s.up.encrypt.Some?
  {
    hide Scripted, StageAt, SettingAt, Count, Contiguous;
    BoundaryStep(s.up, k);
    if s.setup.online {
      KeysOrder(s);
      if k >= 2 { BoundaryGrows(s.up, 2, k); } else if |s.up.frames| >= 2 { BoundaryGrows(s.up, k + 1, 2); }
    }
    hide Wire.Boundary;
  }

  lemma DownWhole(s: State, secret: Bytes, k: nat, offset: nat)
    requires Grounded(s) && Keyed(s, secret) && ServerKeeps(s.setup, s.server, ServerPlace(s)) && k < |s.down.frames|
    requires s.down.frames[k].start <= offset < s.down.frames[k].start + s.down.frames[k].size
    ensures CipherAt(s.down.encrypt, offset) == if s.setup.online && k >= 1 then s.down.encrypt else None
    ensures s.setup.online && k >= 1 ==> s.down.encrypt.Some?
  {
    hide Scripted, StageAt, SettingAt, Count, Contiguous;
    BoundaryStep(s.down, k);
    if s.setup.online {
      KeysOrder(s);
      if k >= 1 { BoundaryGrows(s.down, 1, k); }
    }
    hide Wire.Boundary;
  }

  /**
   In every reachable state each frame is in clear, or encrypted, from its first byte to its last:
   of an online login the client's first two and the server's first are in clear and no other,
   and offline all are.
   */
  lemma EveryFrameWhole(setup: Setup, steps: seq<Step>, k: nat, offset: nat)
    requires setup.KeyPair() && CanAll(Init(setup), steps)
    ensures
      var s := DoAll(Init(setup), steps);
      && (k < |s.up.frames| && s.up.frames[k].start <= offset < s.up.frames[k].start + s.up.frames[k].size ==>
            (CipherAt(s.up.encrypt, offset).Some? <==> s.setup.online && k >= 2))
      && (k < |s.down.frames| && s.down.frames[k].start <= offset < s.down.frames[k].start + s.down.frames[k].size ==>
            (CipherAt(s.down.encrypt, offset).Some? <==> s.setup.online && k >= 1))
  {
    InitFine(setup);
    RunFine(Init(setup), steps);
    var s := DoAll(Init(setup), steps);
    hide Grounded, ClientKeeps, ServerKeeps, CanAll, DoAll, Init, Keyed, CipherAt;
    var secret :| Keyed(s, secret);
    if k < |s.up.frames| && s.up.frames[k].start <= offset < s.up.frames[k].start + s.up.frames[k].size {
      UpWhole(s, secret, k, offset);
    }
    if k < |s.down.frames| && s.down.frames[k].start <= offset < s.down.frames[k].start + s.down.frames[k].size {
      DownWhole(s, secret, k, offset);
    }
  }

  lemma FineStands(s: State)
    requires Fine(s)
    ensures s.failed.None?
  {
  }

  // ---- finished ------------------------------------------------------------------------------

  predicate Finished(s: State) {
    s.client == ClientDone && s.server == ServerDone
  }

  /** What both sides have when the login is over. */
  predicate Agreed(s: State) {
    && s.clientSession == s.serverSession == Setting(InPlay, s.setup.threshold)
    && Drained(s.up) && Drained(s.down)
    && s.up.encrypt == s.up.decrypt && s.down.encrypt == s.down.decrypt
    && (s.up.encrypt.Some? <==> s.setup.online) && (s.down.encrypt.Some? <==> s.setup.online)
    && (s.setup.online ==> s.up.encrypt.value.key == s.down.encrypt.value.key)
  }

  /** Both drivers are at the end of the same script. */
  lemma OverTogether(s: State)
    requires Grounded(s) && StageAt(s.setup, ClientPlace(s)) == Over && StageAt(s.setup, ServerPlace(s)) == Over
    ensures ClientPlace(s) == ServerPlace(s) && Drained(s.up) && Drained(s.down)
    ensures ClientSeen(s) == ClientPlace(s)
  {
    var c := ClientPlace(s);
    var v := ServerPlace(s);
    hide StageAt, Count, SettingAt, Scripted, Contiguous;
    if c < v { OverStays(s.setup, c, v); } else { OverStays(s.setup, v, c); }
  }

  lemma FinishedAgreed(s: State)
    requires Fine(s) && Finished(s)
    ensures Agreed(s)
  {
    hide Scripted, Count, SettingAt, StageAt, Contiguous, Counted;
    OverTogether(s);
    OverInPlay(s);
    SettingSuits(s.setup, ClientSeen(s));
    var secret :| Keyed(s, secret);
    if s.setup.online { LateKeys(s); }
  }

  lemma LateKeys(s: State)
    requires s.setup.online && StageAt(s.setup, ClientPlace(s)) == Over && StageAt(s.setup, ServerPlace(s)) == Over
    ensures ClientPlace(s) >= 3 && ServerPlace(s) >= 3
  {
    Openings(s.setup, 0);
    hide StageAt;
  }

  // ---- no deadlock ---------------------------------------------------------------------------------

  /** Some step is possible. */
  ghost predicate CanGoOn(s: State) {
    exists step :: Can(s, step)
  }

  /** A frame that has been written and not decoded can always be brought nearer. */
  lemma WireMoves(s: State, from: Party)
    requires s.failed.None? && WireFine(WireFrom(s, from)) && !Drained(WireFrom(s, from))
    ensures CanGoOn(s)
  {
    var w := WireFrom(s, from);
    var end := w.Boundary(w.decoded + 1);
    BoundaryGrows(w, w.decoded + 1, |w.frames|);
    if w.handed == end {
      assert Can(s, Carry(from, Decode));
    } else if w.fetched > w.handed {
      assert Can(s, Carry(from, HandOut(1)));
    } else {
      assert Can(s, Carry(from, Fetch(1)));
    }
  }

  lemma NoDeadlock(s: State)
    requires Fine(s) && !Finished(s)
    ensures CanGoOn(s)
  {
    hide Scripted, Count, SettingAt, StageAt, Contiguous, Counted, Keyed;
    if !Drained(s.up) {
      WireMoves(s, Client);
    } else if !Drained(s.down) {
      WireMoves(s, Server);
    } else if !ClientWaits(s.client) && s.client != ClientDone {
      assert Can(s, OfClient(ClientGoesOn(1)));
    } else if !ServerWaits(s.server) && s.server != ServerDone {
      assert Can(s, OfServer(ServerGoesOn(1)));
    } else if s.client == Reading && s.down.taken < s.down.decoded {
      assert Can(s, OfClient(ClientReads([0])));
    } else if ServerWaits(s.server) && s.up.taken < s.up.decoded {
      assert Can(s, OfServer(ServerReads));
    } else {
      BothWait(s);
    }
  }

  /** Two drivers cannot be waiting for each other. */
  lemma BothWait(s: State)
    requires Fine(s) && Drained(s.up) && Drained(s.down)
    requires s.client == ClientDone || (s.client == Reading && s.down.taken == s.down.decoded)
    requires s.server == ServerDone || (ServerWaits(s.server) && s.up.taken == s.up.decoded)
    ensures Finished(s)
  {
    hide Scripted, SettingAt, Contiguous, Keyed, StageAt, Count;
    var c := ClientPlace(s);
    var v := ServerPlace(s);
    if ServerWaits(s.server) { ServerWaitsStage(s); }
    if s.client == ClientDone && s.server != ServerDone {
      if c <= v { OverStays(s.setup, c, v); }
    } else if s.client != ClientDone && s.server == ServerDone {
      if v <= c { OverStays(s.setup, v, c); }
    }
  }

  // ---- no run goes on forever -----------------------------------------------------------------------

  /** No fewer than the packets still to cross from a stage on. */
  function Left(setup: Setup, stage: Stage): nat {
    match stage
    case Over => 0
    case Confirms => 1
    case Configures(rest) => 2 * |rest| + 2
    case AnswersPacks(rest) => 2 * |rest| + 3
    case Acknowledges => 2 * |setup.items| + 3
    case Succeeds => 2 * |setup.items| + 4
    case Compresses => 2 * |setup.items| + 5
    case Responds => 2 * |setup.items| + 6
    case Requests => 2 * |setup.items| + 7
    case Opens => 2 * |setup.items| + 8
  }

  /** What the drivers have still to do. */
  function Work(s: State): nat {
    2 * Left(s.setup, StageAt(s.setup, ClientPlace(s))) + 2 * Left(s.setup, StageAt(s.setup, ServerPlace(s)))
    + (if s.client.SwitchingIn? || s.client.SwitchingOut? then 1 else 0)
    + (if s.server.SwitchingBoth? || s.server == ConfirmingPlay then 1 else 0)
  }

  function Undecoded(s: State): int {
    |s.up.frames| - s.up.decoded + |s.down.frames| - s.down.decoded
  }

  function Unhanded(s: State): int {
    s.up.Total() - s.up.handed + s.down.Total() - s.down.handed
  }

  function Unfetched(s: State): int {
    s.up.Total() - s.up.fetched + s.down.Total() - s.down.fetched
  }

  /** t is nearer the end than s; the order is well founded, since none of the four goes below zero. */
  predicate Nearer(t: State, s: State) {
    || Work(t) < Work(s)
    || (Work(t) == Work(s) && Undecoded(t) < Undecoded(s))
    || (Work(t) == Work(s) && Undecoded(t) == Undecoded(s) && Unhanded(t) < Unhanded(s))
    || (Work(t) == Work(s) && Undecoded(t) == Undecoded(s) && Unhanded(t) == Unhanded(s) && Unfetched(t) < Unfetched(s))
  }

  lemma NotBelowZero(s: State)
    requires Fine(s)
    ensures Undecoded(s) >= 0 && Unhanded(s) >= 0 && Unfetched(s) >= 0
  {
    hide Scripted, SettingAt, Contiguous, Keyed, StageAt, Count;
  }

  lemma NextLess(setup: Setup, k: nat)
    ensures StageAt(setup, k) != Over ==> Left(setup, StageAt(setup, k + 1)) < Left(setup, StageAt(setup, k))
  {
    assert StageAt(setup, k + 1) == Next(setup, StageAt(setup, k));
    hide StageAt;
  }

  lemma ClientNearer(s: State, t: State)
    requires t.setup == s.setup && t.server == s.server && ServerPlace(t) == ServerPlace(s)
    requires StageAt(s.setup, ClientPlace(s)) != Over
    requires
      || ClientPlace(t) == ClientPlace(s) + 1
      || (ClientPlace(t) == ClientPlace(s) && (s.client.SwitchingIn? || s.client.SwitchingOut?)
          && !t.client.SwitchingIn? && !t.client.SwitchingOut?)
    ensures Work(t) < Work(s)
  {
    NextLess(s.setup, ClientPlace(s));
    hide StageAt, Next, Left;
  }

  lemma ServerNearer(s: State, t: State)
    requires t.setup == s.setup && t.client == s.client && ClientPlace(t) == ClientPlace(s)
    requires
      || (ServerPlace(t) == ServerPlace(s) + 1 && StageAt(s.setup, ServerPlace(s)) != Over && s.server != ConfirmingPlay && !s.server.SwitchingBoth?)
      || (ServerPlace(t) == ServerPlace(s) && (s.server.SwitchingBoth? || s.server == ConfirmingPlay)
          && !t.server.SwitchingBoth? && t.server != ConfirmingPlay)
    ensures Work(t) < Work(s)
  {
    NextLess(s.setup, ServerPlace(s));
    hide StageAt, Next, Left;
  }

  /** Writing, unless it fails, is one packet further; switching is none. */
  lemma SendPlaces(s: State, p: Party, m: Message, size: nat)
    requires Send(s, p, m, size).failed.None?
    ensures
      var t := Send(s, p, m, size);
      && ClientPlace(t) == ClientPlace(s) + (if p == Client then 1 else 0)
      && ServerPlace(t) == ServerPlace(s) + (if p == Server then 1 else 0)
      && t.setup == s.setup && t.client == s.client && t.server == s.server
  {
  }

  /** Where the client is once it has gone on without failing. */
  lemma ClientGoesPlaces(s: State, size: nat)
    requires ClientGoes(s, size).failed.None? && !ClientWaits(s.client) && s.client != ClientDone
    ensures
      var t := ClientGoes(s, size);
      && t.setup == s.setup && t.server == s.server && ServerPlace(t) == ServerPlace(s)
      && (ClientMessage(s).Some? ==> ClientPlace(t) == ClientPlace(s) + 1)
      && (ClientMessage(s).None? ==>
            && ClientPlace(t) == ClientPlace(s) && (s.client.SwitchingIn? || s.client.SwitchingOut?)
            && !t.client.SwitchingIn? && !t.client.SwitchingOut?)
  {
    if ClientMessage(s).Some? {
      SendPlaces(s, Client, ClientMessage(s).value, size);
      hide Send;
    }
  }

  lemma ClientGoesNearer(s: State, size: nat)
    requires Fine(s) && Can(s, OfClient(ClientGoesOn(size)))
    ensures Work(ClientGoes(s, size)) < Work(s)
  {
    hide StageAt, ClientGoes, Fine, Work;
    ClientGoesFine(s, size);
    FineStands(ClientGoes(s, size));
    ClientStageLeft(s);
    ClientGoesPlaces(s, size);
    ClientNearer(s, ClientGoes(s, size));
  }

  lemma ClientStageLeft(s: State)
    requires Fine(s) && s.client != ClientDone
    ensures StageAt(s.setup, ClientPlace(s)) != Over
  {
    Openings(s.setup, 0);
    hide Scripted, SettingAt, Contiguous, Keyed, Count, StageAt;
  }

  /** Where the server is once it has gone on without failing. */
  lemma ServerGoesPlaces(s: State, size: nat)
    requires ServerGoes(s, size).failed.None? && !ServerWaits(s.server) && s.server != ServerDone
    requires s.server == Compressing ==> s.setup.threshold.Some?
    ensures
      var t := ServerGoes(s, size);
      && t.setup == s.setup && t.client == s.client && ClientPlace(t) == ClientPlace(s)
      && (ServerMessage(s).Some? ==>
            ServerPlace(t) == ServerPlace(s) + 1 && s.server != ConfirmingPlay && !s.server.SwitchingBoth?)
      && (ServerMessage(s).None? ==>
            && ServerPlace(t) == ServerPlace(s) && (s.server.SwitchingBoth? || s.server == ConfirmingPlay)
            && !t.server.SwitchingBoth? && t.server != ConfirmingPlay)
  {
    if ServerMessage(s).Some? {
      SendPlaces(s, Server, ServerMessage(s).value, size);
      hide Send;
    }
  }

  lemma ServerGoesNearer(s: State, size: nat)
    requires Fine(s) && Can(s, OfServer(ServerGoesOn(size)))
    ensures Work(ServerGoes(s, size)) < Work(s)
  {
    hide StageAt, ServerGoes, Fine, Work;
    ServerGoesFine(s, size);
    FineStands(ServerGoes(s, size));
    CompressingHas(s);
    ServerGoesPlaces(s, size);
    if s.server != ConfirmingPlay { ServerStageLeft(s); }
    ServerNearer(s, ServerGoes(s, size));
  }

  lemma ServerStageLeft(s: State)
    requires Fine(s) && s.server != ConfirmingPlay && s.server != ServerDone
    ensures StageAt(s.setup, ServerPlace(s)) != Over
  {
    Openings(s.setup, 0);
    hide Scripted, SettingAt, Contiguous, Keyed, Count, StageAt;
  }

  lemma ClientTakesNearer(s: State, secret: Bytes)
    requires Fine(s) && Can(s, OfClient(ClientReads(secret)))
    ensures Work(ClientTakes(s, secret)) < Work(s)
  {
    hide StageAt, Fine, Work, Reaction;
    ClientTakesFine(s, secret);
    FineStands(ClientTakes(s, secret));
    ClientStageLeft(s);
    ClientNearer(s, ClientTakes(s, secret));
  }

  lemma ServerTakesNearer(s: State)
    requires Fine(s) && Can(s, OfServer(ServerReads))
    ensures Work(ServerTakes(s)) < Work(s)
  {
    hide StageAt, Fine, Work;
    ServerTakesFine(s);
    FineStands(ServerTakes(s));
    ServerStageLeft(s);
    ServerNearer(s, ServerTakes(s));
  }

  lemma CarryNearer(s: State, from: Party, step: CarryStep)
    requires Fine(s) && Can(s, Carry(from, step))
    ensures Nearer(DoCarry(s, from, step), s)
  {
    hide StageAt, Fine, SameCipher, Moved;
    StepFine(s, Carry(from, step));
    FineStands(DoCarry(s, from, step));
  }

  /** Every step brings the login nearer its end. */
  lemma EveryStepNearer(s: State, step: Step)
    requires Fine(s) && Can(s, step)
    ensures Nearer(Do(s, step), s)
  {
    hide Fine, Work;
    match step {
      case Carry(from, c) => CarryNearer(s, from, c);
      case OfClient(ClientReads(secret)) => ClientTakesNearer(s, secret);
      case OfClient(ClientGoesOn(size)) => ClientGoesNearer(s, size);
      case OfServer(ServerReads) => ServerTakesNearer(s);
      case OfServer(ServerGoesOn(size)) => ServerGoesNearer(s, size);
    }
  }

  /** The steps a schedule calls for, from one place on. */
  function Scheduled(schedule: nat -> Step, from: nat, n: nat): seq<Step> {
    seq(n, i requires 0 <= i < n => schedule(from + i))
  }

  /** No schedule keeps a login busy forever: it comes to a step that is not enabled. */
  lemma {:induction false} ScheduleStops(s: State, schedule: nat -> Step, from: nat) returns (n: nat)
    requires Fine(s)
    ensures CanAll(s, Scheduled(schedule, from, n))
    ensures !Can(DoAll(s, Scheduled(schedule, from, n)), schedule(from + n))
    decreases Work(s), Undecoded(s), Unhanded(s), Unfetched(s)
  {
    hide Fine, Work, Can, Do, Undecoded, Unhanded, Unfetched;
    var step := schedule(from);
    if !Can(s, step) {
      return 0;
    }
    NotBelowZero(s);
    EveryStepNearer(s, step);
    StepFine(s, step);
    n := ScheduleStops(Do(s, step), schedule, from + 1);
    n := n + 1;
    assert Scheduled(schedule, from, n)[1..] == Scheduled(schedule, from + 1, n - 1);
  }

  /** A run that can go no further has finished, with everything agreed. */
  lemma EveryLoginFinishes(setup: Setup, steps: seq<Step>)
    requires setup.KeyPair() && CanAll(Init(setup), steps)
    ensures CanGoOn(DoAll(Init(setup), steps)) || (Finished(DoAll(Init(setup), steps)) && Agreed(DoAll(Init(setup), steps)))
  {
    hide Fine, Agreed, DoAll, CanAll;
    InitFine(setup);
    RunFine(Init(setup), steps);
    var s := DoAll(Init(setup), steps);
    if Finished(s) { FinishedAgreed(s); } else { NoDeadlock(s); }
  }
}
