/**
 Every interleaving of an honest login: nothing fails, both ends of each direction
 switch ciphers at the same byte, every frame is decoded as it was encoded, and a run
 that can go no further has both drivers in play with the same secret and threshold.
 */
module LoginSafe {
  import opened Wrappers
  import opened Login
  import opened LoginScript

  // ---- a wire -----------------------------------------------------------------------------------

  predicate Joined(frames: seq<Frame>, i: nat)
    requires i < |frames|
  {
    frames[i].size > 0 && frames[i].start == if i == 0 then 0 else frames[i - 1].End()
  }

  /** Frames follow each other on the wire without a gap. */
  predicate Contiguous(frames: seq<Frame>) {
    forall i :: 0 <= i < |frames| ==> Joined(frames, i)
  }

  predicate WireFine(w: Wire) {
    && Contiguous(w.frames)
    && w.taken <= w.decoded <= |w.frames|
    && w.Boundary(w.decoded) <= w.handed <= w.fetched <= w.Total()
    && w.handed <= w.Boundary(if w.decoded < |w.frames| then w.decoded + 1 else w.decoded)
    && w.pending <= w.fetched - w.handed
  }

  /** Nothing the writer wrote is unread, so nothing can have been read ahead. */
  predicate Drained(w: Wire) {
    w.decoded == |w.frames|
  }

  lemma DrainedIsEmpty(w: Wire)
    requires WireFine(w) && Drained(w)
    ensures w.handed == w.fetched == w.Total() && w.pending == 0
  {
  }

  lemma BoundaryStep(w: Wire, n: nat)
    requires Contiguous(w.frames) && n < |w.frames|
    ensures w.Boundary(n) == w.frames[n].start < w.Boundary(n + 1) == w.frames[n].End()
  {
    assert Joined(w.frames, n);
  }

  lemma {:induction false} BoundaryGrows(w: Wire, i: nat, k: nat)
    requires Contiguous(w.frames) && i <= k <= |w.frames|
    ensures w.Boundary(i) <= w.Boundary(k)
    decreases k
  {
    if i < k {
      BoundaryGrows(w, i, k - 1);
      BoundaryStep(w, k - 1);
    }
  }

  lemma Appended(w: Wire, f: Frame)
    requires WireFine(w) && f.start == w.Total() && f.size > 0
    ensures WireFine(w.(frames := w.frames + [f]))
    ensures forall n :: 0 <= n <= |w.frames| ==> w.(frames := w.frames + [f]).Boundary(n) == w.Boundary(n)
  {
    var v := w.(frames := w.frames + [f]);
    forall i | 0 <= i < |v.frames| ensures Joined(v.frames, i) {
      if i < |w.frames| { assert Joined(w.frames, i); }
    }
    assert forall n :: 0 <= n <= |w.frames| ==> v.Boundary(n) == w.Boundary(n);
    BoundaryStep(v, |w.frames|);
  }

  // ---- where each party is in the script -----------------------------------------------------------

  function ClientPlace(s: State): nat { |s.up.frames| + s.down.taken }
  function ServerPlace(s: State): nat { |s.down.frames| + s.up.taken }

  /** Where its stream is, which may have decoded packets the driver has yet to read. */
  function ClientSeen(s: State): nat { |s.up.frames| + s.down.decoded }
  function ServerSeen(s: State): nat { |s.down.frames| + s.up.decoded }

  /** What a party has sent and received is what the script has it send and receive up to a place. */
  predicate At(setup: Setup, k: nat, p: Party, sent: nat, received: nat) {
    Count(setup, k, p) == sent && Count(setup, k, Other(p)) == received
  }

  predicate Counted(s: State) {
    && At(s.setup, ClientPlace(s), Client, |s.up.frames|, s.down.taken)
    && At(s.setup, ClientSeen(s), Client, |s.up.frames|, s.down.decoded)
    && At(s.setup, ServerPlace(s), Server, |s.down.frames|, s.up.taken)
    && At(s.setup, ServerSeen(s), Server, |s.down.frames|, s.up.decoded)
  }

  ghost predicate Genuine(setup: Setup, m: Message) {
    match m
    case SetCompression(t) => setup.threshold == Some(t)
    case EncryptionRequest(token) => token == setup.token
    case EncryptionResponse(_, sealedToken) => setup.open(sealedToken) == Some(setup.token)
    case _ => true
  }

  /** The frame is the k-th packet of the script. */
  ghost predicate IsEntry(setup: Setup, f: Frame, k: nat) {
    && StageAt(setup, k) != Over
    && KindOf(f.message) == Head(StageAt(setup, k)) && Genuine(setup, f.message)
    && f.setting == SettingAt(setup, k)
  }

  /** If the i-th packet of the script is the party's, its frame is among these, in its place. */
  ghost predicate Entered(setup: Setup, frames: seq<Frame>, p: Party, i: nat) {
    SentBy(StageAt(setup, i), p) ==> Count(setup, i, p) < |frames| && IsEntry(setup, frames[Count(setup, i, p)], i)
  }

  ghost predicate Scripted(setup: Setup, frames: seq<Frame>, p: Party, k: nat) {
    forall i :: 0 <= i < k ==> Entered(setup, frames, p, i)
  }

  lemma ScriptedMore(setup: Setup, frames: seq<Frame>, p: Party, k: nat, f: Frame)
    requires Scripted(setup, frames, p, k) && Count(setup, k, p) == |frames|
    requires SentBy(StageAt(setup, k), p) && IsEntry(setup, f, k)
    ensures Scripted(setup, frames + [f], p, k + 1)
  {
    hide IsEntry, Count, StageAt;
    forall i | 0 <= i < k + 1 ensures Entered(setup, frames + [f], p, i) {
      if i < k { assert Entered(setup, frames, p, i); }
    }
  }

  lemma ScriptedPast(setup: Setup, frames: seq<Frame>, p: Party, k: nat)
    requires Scripted(setup, frames, p, k) && !SentBy(StageAt(setup, k), p)
    ensures Scripted(setup, frames, p, k + 1)
  {
    hide IsEntry, Count, StageAt;
  }

  // ---- the drivers' own places ------------------------------------------------------------------------

  predicate ClientKeeps(setup: Setup, pc: ClientPc, k: nat) {
    var stage := StageAt(setup, k);
    match pc
    case Starting => stage == Opens
    case Reading => SentBy(stage, Server)
    case SwitchingIn(_, _) => stage == Responds
    case Responding(_, _) => stage == Responds
    case SwitchingOut(_) => setup.online && k == 3
    case Acknowledging => stage == Acknowledges
    case AnsweringPacks => stage.AnswersPacks?
    case AnsweringFinish => stage == Confirms
    case ClientDone => stage == Over
  }

  predicate ServerKeeps(setup: Setup, pc: ServerPc, k: nat) {
    var stage := StageAt(setup, k);
    match pc
    case AwaitingStart => stage == Opens
    case Requesting => stage == Requests
    case AwaitingResponse => stage == Responds
    case SwitchingBoth(_) => setup.online && k == 3
    case Compressing => stage == Compresses
    case Succeeding => stage == Succeeds
    case AwaitingAcknowledgement => stage == Acknowledges
    case Configuring(rest) => stage == Configures(rest)
    case AwaitingPacks(rest) => stage == AnswersPacks(rest)
    case AwaitingFinish => stage == Confirms
    case ConfirmingPlay => stage == Over
    case ServerDone => stage == Over
  }

  // ---- the ciphers -------------------------------------------------------------------------------------------

  /** A half that is installed was installed where the other direction's last plaintext frame ends. */
  predicate HalfAt(half: Option<Switch>, installed: bool, w: Wire, n: nat, secret: Bytes) {
    if installed then n <= |w.frames| && half == Some(Switch(w.Boundary(n), secret)) else half == None
  }

  ghost predicate Keyed(s: State, secret: Bytes) {
    var c := ClientPlace(s);
    var v := ServerPlace(s);
    && (s.client.SwitchingIn? ==> s.client == SwitchingIn(secret, s.setup.token))
    && (s.client.Responding? ==> s.client == Responding(secret, s.setup.token))
    && (s.client.SwitchingOut? ==> s.client == SwitchingOut(secret))
    && (s.server.SwitchingBoth? ==> s.server == SwitchingBoth(secret))
    && (s.setup.online && c >= 3 ==>
          |s.up.frames| >= 2 && s.up.frames[1].message == EncryptionResponse(s.setup.seal(secret), s.setup.seal(s.setup.token)))
    && HalfAt(s.down.decrypt, s.setup.online && (c >= 3 || s.client.Responding?), s.down, 1, secret)
    && HalfAt(s.up.encrypt, s.setup.online && c >= 3 && !s.client.SwitchingOut?, s.up, 2, secret)
    && HalfAt(s.down.encrypt, s.setup.online && v >= 3 && !s.server.SwitchingBoth?, s.down, 1, secret)
    && HalfAt(s.up.decrypt, s.setup.online && v >= 3 && !s.server.SwitchingBoth?, s.up, 2, secret)
  }

  // ---- the invariant --------------------------------------------------------------------------------------------

  /** The wires and the sessions are where the script says. */
  ghost predicate Grounded(s: State) {
    && s.failed.None? && s.setup.KeyPair()
    && WireFine(s.up) && WireFine(s.down)
    && Counted(s)
    && s.clientSession == SettingAt(s.setup, ClientSeen(s))
    && s.serverSession == SettingAt(s.setup, ServerSeen(s))
    && Scripted(s.setup, s.up.frames, Client, ClientPlace(s))
    && Scripted(s.setup, s.down.frames, Server, ServerPlace(s))
  }

  ghost predicate Fine(s: State) {
    && Grounded(s)
    && ClientKeeps(s.setup, s.client, ClientPlace(s))
    && ServerKeeps(s.setup, s.server, ServerPlace(s))
    && exists secret :: Keyed(s, secret)
  }

  // ---- whose turn it is -------------------------------------------------------------------------------------------

  /** When the client is to send, it has read everything the server sent. */
  lemma ClientTurn(s: State)
    requires WireFine(s.up) && WireFine(s.down) && Counted(s) && SentBy(StageAt(s.setup, ClientPlace(s)), Client)
    ensures Drained(s.down) && s.down.taken == s.down.decoded && ClientSeen(s) == ClientPlace(s)
    ensures ServerPlace(s) <= ClientPlace(s)
  {
    var c := ClientPlace(s);
    var v := ServerPlace(s);
    hide StageAt, Count, Contiguous;
    if v > c {
      CountsOwn(s.setup, c, v, Client);
      assert false;
    }
    CountGrows(s.setup, v, c, Server);
  }

  lemma ServerTurn(s: State)
    requires WireFine(s.up) && WireFine(s.down) && Counted(s) && SentBy(StageAt(s.setup, ServerPlace(s)), Server)
    ensures Drained(s.up) && s.up.taken == s.up.decoded && ServerSeen(s) == ServerPlace(s)
    ensures ClientPlace(s) <= ServerPlace(s)
  {
    var c := ClientPlace(s);
    var v := ServerPlace(s);
    hide StageAt, Count, Contiguous;
    if c > v {
      CountsOwn(s.setup, v, c, Server);
      assert false;
    }
    CountGrows(s.setup, c, v, Client);
  }

  /** The next frame the client's stream decodes is the next packet of the script. */
  lemma ClientNext(s: State)
    requires WireFine(s.up) && WireFine(s.down) && Counted(s) && s.down.decoded < |s.down.frames|
    ensures ClientSeen(s) < ServerPlace(s) && SentBy(StageAt(s.setup, ClientSeen(s)), Server)
  {
    var d := ClientSeen(s);
    var v := ServerPlace(s);
    hide StageAt, Count, Contiguous;
    if d >= v { CountGrows(s.setup, v, d, Server); assert false; }
    if StageAt(s.setup, d) == Over { OverStays(s.setup, d, v); assert false; }
    if SentBy(StageAt(s.setup, d), Client) { CountsOwn(s.setup, d, v, Client); assert false; }
  }

  lemma ServerNext(s: State)
    requires WireFine(s.up) && WireFine(s.down) && Counted(s) && s.up.decoded < |s.up.frames|
    ensures ServerSeen(s) < ClientPlace(s) && SentBy(StageAt(s.setup, ServerSeen(s)), Client)
  {
    var d := ServerSeen(s);
    var c := ClientPlace(s);
    hide StageAt, Count, Contiguous;
    if d >= c { CountGrows(s.setup, c, d, Client); assert false; }
    if StageAt(s.setup, d) == Over { OverStays(s.setup, d, c); assert false; }
    if SentBy(StageAt(s.setup, d), Server) { CountsOwn(s.setup, d, c, Server); assert false; }
  }

  /** Once the script is over, nobody sends. */
  lemma {:induction false} OverStays(setup: Setup, i: nat, k: nat)
    requires i <= k && StageAt(setup, i) == Over
    ensures StageAt(setup, k) == Over
    ensures Count(setup, k, Client) == Count(setup, i, Client) && Count(setup, k, Server) == Count(setup, i, Server)
    decreases k
  {
    if i < k { OverStays(setup, i, k - 1); }
  }

  // ---- sending ------------------------------------------------------------------------------------------------------

  /** A packet in its place moves a session as the script has it. */
  lemma MovedAlong(setup: Setup, k: nat, m: Message)
    requires StageAt(setup, k) != Over && KindOf(m) == Head(StageAt(setup, k)) && Genuine(setup, m)
    ensures Moved(setup.continues, SettingAt(setup, k), m) == Some(SettingAt(setup, k + 1))
  {
    SettingSuits(setup, k);
    assert SettingAt(setup, k + 1) == MovedBy(setup, SettingAt(setup, k), Head(StageAt(setup, k)));
    hide StageAt, SettingAt;
  }

  lemma CountStep(setup: Setup, k: nat, p: Party)
    ensures Count(setup, k + 1, p) == Count(setup, k, p) + if SentBy(StageAt(setup, k), p) then 1 else 0
  {
  }

  /** What a party may send now. */
  ghost predicate MaySend(setup: Setup, k: nat, p: Party, m: Message) {
    && SentBy(StageAt(setup, k), p) && KindOf(m) == Head(StageAt(setup, k)) && Genuine(setup, m)
  }

  lemma ClientSends(s: State, m: Message, size: nat)
    requires Grounded(s) && MaySend(s.setup, ClientPlace(s), Client, m) && size > 0
    ensures
      var t := Send(s, Client, m, size);
      && Grounded(t) && ClientPlace(t) == ClientPlace(s) + 1 && ServerPlace(t) == ServerPlace(s)
      && t.down == s.down && t.up == s.up.(frames := t.up.frames)
      && |t.up.frames| == |s.up.frames| + 1 && t.up.frames[|s.up.frames|].message == m
      && (forall n :: 0 <= n <= |s.up.frames| ==> t.up.Boundary(n) == s.up.Boundary(n))
      && (forall i :: 0 <= i < |s.up.frames| ==> t.up.frames[i] == s.up.frames[i])
      && t.client == s.client && t.server == s.server && t.setup == s.setup
  {
    hide StageAt, Count, SettingAt, WireFine, Scripted, Genuine, Moved, Head, KindOf, Wire.Boundary;
    var k := ClientPlace(s);
    var t := Send(s, Client, m, size);
    ClientTurn(s);
    MovedAlong(s.setup, k, m);
    CountStep(s.setup, k, Client);
    CountStep(s.setup, k, Server);
    var f := Frame(m, s.clientSession, s.up.Total(), size);
    assert t.up == s.up.(frames := s.up.frames + [f]);
    Appended(s.up, f);
    ScriptedMore(s.setup, s.up.frames, Client, k, f);
  }

  lemma ServerSends(s: State, m: Message, size: nat)
    requires Grounded(s) && MaySend(s.setup, ServerPlace(s), Server, m) && size > 0
    ensures
      var t := Send(s, Server, m, size);
      && Grounded(t) && ServerPlace(t) == ServerPlace(s) + 1 && ClientPlace(t) == ClientPlace(s)
      && t.up == s.up && t.down == s.down.(frames := t.down.frames)
      && |t.down.frames| == |s.down.frames| + 1 && t.down.frames[|s.down.frames|].message == m
      && (forall n :: 0 <= n <= |s.down.frames| ==> t.down.Boundary(n) == s.down.Boundary(n))
      && (forall i :: 0 <= i < |s.down.frames| ==> t.down.frames[i] == s.down.frames[i])
      && t.client == s.client && t.server == s.server && t.setup == s.setup
  {
    hide StageAt, Count, SettingAt, WireFine, Scripted, Genuine, Moved, Head, KindOf, Wire.Boundary;
    var k := ServerPlace(s);
    var t := Send(s, Server, m, size);
    ServerTurn(s);
    MovedAlong(s.setup, k, m);
    CountStep(s.setup, k, Client);
    CountStep(s.setup, k, Server);
    var f := Frame(m, s.serverSession, s.down.Total(), size);
    assert t.down == s.down.(frames := s.down.frames + [f]);
    Appended(s.down, f);
    ScriptedMore(s.setup, s.down.frames, Server, k, f);
  }

  // ---- reading ---------------------------------------------------------------------------------------------------------

  /** The packet a waiting party takes is the one the script has next. */
  lemma ClientGets(s: State)
    requires Grounded(s) && SentBy(StageAt(s.setup, ClientPlace(s)), Server) && s.down.taken < s.down.decoded
    ensures
      var t := s.(down := s.down.(taken := s.down.taken + 1));
      && IsEntry(s.setup, s.down.frames[s.down.taken], ClientPlace(s))
      && Grounded(t) && ClientPlace(t) == ClientPlace(s) + 1 && ServerPlace(t) == ServerPlace(s)
  {
    hide StageAt, SettingAt, Contiguous, IsEntry, Count;
    var k := ClientPlace(s);
    var t := s.(down := s.down.(taken := s.down.taken + 1));
    CountStep(s.setup, k, Client);
    CountStep(s.setup, k, Server);
    ScriptedPast(s.setup, s.up.frames, Client, k);
    if k >= ServerPlace(s) { CountGrows(s.setup, ServerPlace(s), k, Server); assert false; }
    assert Entered(s.setup, s.down.frames, Server, k);
    hide Scripted;
    assert WireFine(t.down);
  }

  lemma ServerGets(s: State)
    requires Grounded(s) && SentBy(StageAt(s.setup, ServerPlace(s)), Client) && s.up.taken < s.up.decoded
    ensures
      var t := s.(up := s.up.(taken := s.up.taken + 1));
      && IsEntry(s.setup, s.up.frames[s.up.taken], ServerPlace(s))
      && Grounded(t) && ServerPlace(t) == ServerPlace(s) + 1 && ClientPlace(t) == ClientPlace(s)
  {
    hide StageAt, SettingAt, Contiguous, IsEntry, Count;
    var k := ServerPlace(s);
    var t := s.(up := s.up.(taken := s.up.taken + 1));
    CountStep(s.setup, k, Client);
    CountStep(s.setup, k, Server);
    ScriptedPast(s.setup, s.down.frames, Server, k);
    if k >= ClientPlace(s) { CountGrows(s.setup, ClientPlace(s), k, Client); assert false; }
    assert Entered(s.setup, s.up.frames, Client, k);
    hide Scripted;
    assert WireFine(t.up);
  }

  // ---- the keys -----------------------------------------------------------------------------------------------------------

  /** Before the response is sent, the server is not past waiting for it; and what each has by then. */
  lemma KeysOrder(s: State)
    requires Grounded(s) && s.setup.online
    ensures ServerPlace(s) >= 3 ==> ClientPlace(s) >= 3
    ensures ClientPlace(s) >= 2 ==> ServerPlace(s) >= 2
    ensures |s.up.frames| >= 1 <==> ClientPlace(s) >= 1
    ensures |s.up.frames| >= 2 <==> ClientPlace(s) >= 3
    ensures |s.down.frames| >= 1 <==> ServerPlace(s) >= 2
    ensures |s.up.frames| >= 3 ==> ClientPlace(s) >= 4 && ServerPlace(s) >= 4
    ensures |s.down.frames| >= 2 ==> ServerPlace(s) >= 4 && ClientPlace(s) >= 3
    ensures s.up.taken >= 2 <==> ServerPlace(s) >= 3
    ensures s.down.taken >= 1 <==> ClientPlace(s) >= 2
  {
    var c := ClientPlace(s);
    var v := ServerPlace(s);
    OpeningCounts(s.setup);
    Openings(s.setup, c);
    CountStep(s.setup, 3, Client);
    CountStep(s.setup, 3, Server);
    CountsBound(s.setup, c, Client);
    CountsBound(s.setup, v, Client);
    CountsBound(s.setup, c, Server);
    CountsBound(s.setup, v, Server);
    hide StageAt, Count, SettingAt, Scripted, Contiguous, Wire.Boundary;
  }

  lemma CountsBound(setup: Setup, k: nat, p: Party)
    ensures k <= 1 ==> Count(setup, k, p) <= Count(setup, 1, p)
    ensures k >= 1 ==> Count(setup, k, p) >= Count(setup, 1, p)
    ensures k <= 2 ==> Count(setup, k, p) <= Count(setup, 2, p)
    ensures k <= 3 ==> Count(setup, k, p) <= Count(setup, 3, p)
    ensures k <= 4 ==> Count(setup, k, p) <= Count(setup, 4, p)
    ensures k >= 2 ==> Count(setup, k, p) >= Count(setup, 2, p)
    ensures k >= 3 ==> Count(setup, k, p) >= Count(setup, 3, p)
    ensures k >= 4 ==> Count(setup, k, p) >= Count(setup, 4, p)
  {
    hide Count;
    if k <= 1 { CountGrows(setup, k, 1, p); }
    if k >= 1 { CountGrows(setup, 1, k, p); }
    if k <= 2 { CountGrows(setup, k, 2, p); }
    if k <= 3 { CountGrows(setup, k, 3, p); }
    if k <= 4 { CountGrows(setup, k, 4, p); }
    if k >= 2 { CountGrows(setup, 2, k, p); }
    if k >= 3 { CountGrows(setup, 3, k, p); }
    if k >= 4 { CountGrows(setup, 4, k, p); }
  }

  /** Two states that agree on what the keys are about. */
  ghost predicate SameKeys(s: State, t: State) {
    && t.setup == s.setup
    && t.up.(taken := s.up.taken, decoded := s.up.decoded, fetched := s.up.fetched, handed := s.up.handed, pending := s.up.pending) == s.up
    && t.down.(taken := s.down.taken, decoded := s.down.decoded, fetched := s.down.fetched, handed := s.down.handed, pending := s.down.pending) == s.down
  }

  /** A driver reads a packet that has nothing to do with keys. */
  lemma ReadKeyed(s: State, t: State, secret: Bytes)
    requires Keyed(s, secret) && SameKeys(s, t)
    requires s.setup.online ==>
      && (ClientPlace(t) >= 3 <==> ClientPlace(s) >= 3) && (ServerPlace(t) >= 3 <==> ServerPlace(s) >= 3)
    requires t.client == s.client || (!ClientSwitches(s.client) && !ClientSwitches(t.client))
    requires t.server == s.server || (!s.server.SwitchingBoth? && !t.server.SwitchingBoth?)
    ensures Keyed(t, secret)
  {
  }

  predicate ClientSwitches(pc: ClientPc) {
    pc.SwitchingIn? || pc.Responding? || pc.SwitchingOut?
  }

  // ---- the client's steps ----------------------------------------------------------------------------------------------------

  /** The packet the client is about to take, and where that leaves it. */
  lemma ClientReadsStage(s: State)
    requires Fine(s) && s.client == Reading && s.down.taken < s.down.decoded
    ensures
      var k := ClientPlace(s);
      && SentBy(StageAt(s.setup, k), Server)
      && IsEntry(s.setup, s.down.frames[s.down.taken], k)
      && StageAt(s.setup, k + 1) == Next(s.setup, StageAt(s.setup, k))
      && Suits(s.setup, StageAt(s.setup, k), SettingAt(s.setup, k))
      && (StageAt(s.setup, k) == Requests <==> s.setup.online && k == 1)
      && (s.setup.online ==> k != 2)
  {
    ClientGets(s);
    SettingSuits(s.setup, ClientPlace(s));
    Openings(s.setup, ClientPlace(s));
    hide Grounded, Keyed, IsEntry, SettingAt, Suits;
  }

  /** What the loop makes of the packet is what the script wants next. */
  lemma ClientReacts(setup: Setup, f: Frame, k: nat, secret: Bytes)
    requires SentBy(StageAt(setup, k), Server) && IsEntry(setup, f, k)
    ensures
      var pc := Reaction(setup, f.message, f.setting.state, secret);
      && pc.Some? && ClientKeeps(setup, pc.value, k + 1)
      && (pc.value.SwitchingIn? <==> StageAt(setup, k) == Requests)
      && (pc.value.SwitchingIn? ==> pc.value == SwitchingIn(secret, setup.token))
      && !pc.value.Responding? && !pc.value.SwitchingOut?
  {
    SettingSuits(setup, k);
    assert StageAt(setup, k + 1) == Next(setup, StageAt(setup, k));
    hide StageAt, SettingAt;
  }

  lemma ClientTakesFine(s: State, secret: Bytes)
    requires Fine(s) && Can(s, OfClient(ClientReads(secret)))
    ensures Fine(ClientTakes(s, secret))
  {
    hide Scripted, StageAt, SettingAt, IsEntry, Count, Counted, WireFine, ServerKeeps, Keyed;
    var t := ClientTakes(s, secret);
    var k := ClientPlace(s);
    ClientReadsStage(s);
    ClientGets(s);
    ClientReacts(s.setup, s.down.frames[s.down.taken], k, secret);
    hide Reaction, ClientKeeps;
    SameGround(s.(down := s.down.(taken := s.down.taken + 1)), t);
    var was :| Keyed(s, was);
    if t.client.SwitchingIn? {
      KeysOrder(s);
      if s.server.SwitchingBoth? { ServerSwitchPlace(s); }
      NewSecret(s, t, was, secret);
    } else {
      ReadKeyed(s, t, was);
    }
  }

  /** The drivers' own places are no part of the ground. */
  lemma SameGround(s: State, t: State)
    requires Grounded(s) && t == s.(client := t.client, server := t.server)
    ensures Grounded(t) && ClientPlace(t) == ClientPlace(s) && ServerPlace(t) == ServerPlace(s)
  {
    hide Scripted, SettingAt, Count, WireFine;
  }

  lemma ServerSwitchPlace(s: State)
    requires ServerKeeps(s.setup, s.server, ServerPlace(s)) && s.server.SwitchingBoth?
    ensures ServerPlace(s) == 3
  {
  }

  /** Nothing depends on the secret before it is chosen. */
  lemma NewSecret(s: State, t: State, was: Bytes, secret: Bytes)
    requires Keyed(s, was) && SameKeys(s, t) && ClientPlace(t) == 2 && ServerPlace(t) < 3 && ServerPlace(s) < 3 && ClientPlace(s) < 3
    requires s.client == Reading && t.client == SwitchingIn(secret, s.setup.token)
    requires t.server == s.server && !s.server.SwitchingBoth?
    ensures Keyed(t, secret)
  {
  }

  // ---- the client goes on -------------------------------------------------------------------------------------------------

  /** What a client that is about to write writes. */
  function ClientMessage(s: State): Option<Message> {
    match s.client
    case Starting => Some(LoginStart)
    case Responding(secret, token) => Some(EncryptionResponse(s.setup.seal(secret), s.setup.seal(token)))
    case Acknowledging => Some(LoginAcknowledged)
    case AnsweringPacks => Some(KnownPacksAnswer)
    case AnsweringFinish => Some(ConfigurationAnswer)
    case _ => None
  }

  function ClientNextPc(pc: ClientPc): ClientPc {
    match pc
    case Responding(secret, _) => SwitchingOut(secret)
    case AnsweringFinish => ClientDone
    case _ => Reading
  }

  lemma ClientWrites(s: State, secret: Bytes)
    requires s.setup.KeyPair() && ClientKeeps(s.setup, s.client, ClientPlace(s)) && ClientMessage(s).Some?
    requires s.client.Responding? ==> s.client == Responding(secret, s.setup.token)
    ensures MaySend(s.setup, ClientPlace(s), Client, ClientMessage(s).value)
    ensures ClientKeeps(s.setup, ClientNextPc(s.client), ClientPlace(s) + 1)
    ensures s.client.Responding? <==> StageAt(s.setup, ClientPlace(s)) == Responds
    ensures s.client.Responding? ==> ClientPlace(s) == 2 && s.setup.online
    ensures s.setup.online && ClientPlace(s) == 2 ==> s.client.Responding?
  {
    var k := ClientPlace(s);
    Openings(s.setup, k);
    assert StageAt(s.setup, k + 1) == Next(s.setup, StageAt(s.setup, k));
    hide StageAt;
  }

  lemma ClientWritesFine(s: State, size: nat)
    requires Fine(s) && ClientMessage(s).Some? && size > 0
    ensures Fine(ClientGoes(s, size))
  {
    hide Scripted, StageAt, SettingAt, Count, Counted, WireFine, ServerKeeps, ClientKeeps, Keyed, MaySend;
    var secret :| Keyed(s, secret);
    KeyedPcs(s, secret);
    ClientWrites(s, secret);
    var m := ClientMessage(s).value;
    var sent := Send(s, Client, m, size);
    ClientSends(s, m, size);
    var t := sent.(client := ClientNextPc(s.client));
    assert ClientGoes(s, size) == t;
    hide ClientGoes, Send;
    SameGround(sent, t);
    if s.setup.online { KeysOrder(s); }
    WroteKeyed(s, t, secret);
  }

  lemma KeyedPcs(s: State, secret: Bytes)
    requires Keyed(s, secret)
    ensures s.client.SwitchingIn? ==> s.client == SwitchingIn(secret, s.setup.token)
    ensures s.client.Responding? ==> s.client == Responding(secret, s.setup.token)
    ensures s.client.SwitchingOut? ==> s.client == SwitchingOut(secret)
    ensures s.server.SwitchingBoth? ==> s.server == SwitchingBoth(secret)
  {
  }

  lemma WroteKeyed(s: State, t: State, secret: Bytes)
    requires Keyed(s, secret) && ClientMessage(s).Some? && t.setup == s.setup && t.server == s.server && t.down == s.down
    requires t.client == ClientNextPc(s.client) && t.up == s.up.(frames := t.up.frames)
    requires |t.up.frames| == |s.up.frames| + 1 && t.up.frames[|s.up.frames|].message == ClientMessage(s).value
    requires forall n :: 0 <= n <= |s.up.frames| ==> t.up.Boundary(n) == s.up.Boundary(n)
    requires forall i :: 0 <= i < |s.up.frames| ==> t.up.frames[i] == s.up.frames[i]
    requires s.client.Responding? ==> s.client == Responding(secret, s.setup.token) && ClientPlace(s) == 2
    requires s.setup.online && ClientPlace(s) == 2 ==> s.client.Responding? && |s.up.frames| == 1
    ensures Keyed(t, secret)
  {
    hide Wire.Boundary;
  }

  /** Neither is which ciphers are installed. */
  lemma CiphersGround(s: State, t: State)
    requires Grounded(s)
    requires t == s.(up := s.up.(encrypt := t.up.encrypt, decrypt := t.up.decrypt),
                     down := s.down.(encrypt := t.down.encrypt, decrypt := t.down.decrypt),
                     client := t.client, server := t.server)
    ensures Grounded(t) && ClientPlace(t) == ClientPlace(s) && ServerPlace(t) == ServerPlace(s)
  {
    hide Scripted, SettingAt, Count, Contiguous;
  }

  /** At the client's inbound switch the request is the server's only frame, and it has all been handed out. */
  lemma AtSwitchIn(s: State, secret: Bytes)
    requires Fine(s) && s.client.SwitchingIn? && Keyed(s, secret)
    ensures s.setup.online && ClientPlace(s) == 2 && |s.down.frames| == 1
    ensures s.down.handed == s.down.Boundary(1) && s.down.pending == 0 && s.down.decrypt.None?
  {
    hide Scripted, StageAt, SettingAt, Count, Contiguous, ServerKeeps;
    Openings(s.setup, ClientPlace(s));
    OpeningCounts(s.setup);
    ClientTurn(s);
    DrainedIsEmpty(s.down);
  }

  lemma SwitchInFine(s: State, size: nat)
    requires Fine(s) && s.client.SwitchingIn?
    ensures Fine(ClientGoes(s, size))
  {
    hide Grounded, StageAt, ServerKeeps;
    var secret :| Keyed(s, secret);
    AtSwitchIn(s, secret);
    var t := ClientGoes(s, size);
    CiphersGround(s, t);
    assert Keyed(t, secret);
    hide Keyed;
  }

  lemma AtSwitchOut(s: State, secret: Bytes)
    requires Fine(s) && s.client.SwitchingOut? && Keyed(s, secret)
    ensures s.setup.online && ClientPlace(s) == 3 && |s.up.frames| == 2 && s.up.encrypt.None?
    ensures StageAt(s.setup, 3) == KeysDone(s.setup)
  {
    hide Scripted, StageAt, SettingAt, Count, Contiguous, ServerKeeps;
    Openings(s.setup, 3);
    OpeningCounts(s.setup);
  }

  lemma SwitchOutFine(s: State, size: nat)
    requires Fine(s) && s.client.SwitchingOut?
    ensures Fine(ClientGoes(s, size))
  {
    hide Grounded, StageAt, ServerKeeps;
    var secret :| Keyed(s, secret);
    AtSwitchOut(s, secret);
    var t := ClientGoes(s, size);
    CiphersGround(s, t);
    assert Keyed(t, secret);
    hide Keyed;
  }

  lemma ClientGoesFine(s: State, size: nat)
    requires Fine(s) && Can(s, OfClient(ClientGoesOn(size)))
    ensures Fine(ClientGoes(s, size))
  {
    hide Fine, ClientGoes;
    if s.client.SwitchingIn? {
      SwitchInFine(s, size);
    } else if s.client.SwitchingOut? {
      SwitchOutFine(s, size);
    } else {
      ClientWritesFine(s, size);
    }
  }

  // ---- the server's steps ----------------------------------------------------------------------------------------------------

  /** What a server that is about to write writes, and where that leaves it. */
  function ServerMessage(s: State): Option<Message> {
    match s.server
    case Requesting => Some(EncryptionRequest(s.setup.token))
    case Compressing => if s.setup.threshold.Some? then Some(SetCompression(s.setup.threshold.value)) else None
    case Succeeding => Some(LoginSuccess)
    case Configuring(rest) =>
      Some(if rest == [] then ConfigurationFinished else if rest[0] == PackList then KnownPacks else Content)
    case _ => None
  }

  function ServerNextPc(setup: Setup, pc: ServerPc): ServerPc {
    match pc
    case Requesting => AwaitingResponse
    case Compressing => Succeeding
    case Succeeding => if setup.continues then AwaitingAcknowledgement else ConfirmingPlay
    case Configuring(rest) =>
      if rest == [] then AwaitingFinish
      else if rest[0] == PackList then AwaitingPacks(rest[1..])
      else Configuring(rest[1..])
    case _ => pc
  }

  lemma ServerWrites(s: State)
    requires ServerKeeps(s.setup, s.server, ServerPlace(s)) && ServerMessage(s).Some?
    ensures MaySend(s.setup, ServerPlace(s), Server, ServerMessage(s).value)
    ensures ServerKeeps(s.setup, ServerNextPc(s.setup, s.server), ServerPlace(s) + 1)
    ensures s.setup.online ==> ServerPlace(s) != 2
    ensures s.setup.online && ServerPlace(s) < 3 ==> ServerPlace(s) + 1 < 3
  {
    var k := ServerPlace(s);
    Openings(s.setup, k);
    assert StageAt(s.setup, k + 1) == Next(s.setup, StageAt(s.setup, k));
    hide StageAt;
  }

  lemma ServerWritesFine(s: State, size: nat)
    requires Fine(s) && ServerMessage(s).Some? && size > 0
    ensures Fine(ServerGoes(s, size))
  {
    hide Scripted, StageAt, SettingAt, Count, Counted, WireFine, ServerKeeps, ClientKeeps, Keyed, MaySend;
    var secret :| Keyed(s, secret);
    ServerWrites(s);
    var m := ServerMessage(s).value;
    var sent := Send(s, Server, m, size);
    ServerSends(s, m, size);
    var t := sent.(server := ServerNextPc(s.setup, s.server));
    assert ServerGoes(s, size) == t;
    hide ServerGoes, Send;
    SameGround(sent, t);
    if s.setup.online { KeysOrder(s); }
    ServerWroteKeyed(s, t, secret);
  }

  lemma ServerWroteKeyed(s: State, t: State, secret: Bytes)
    requires Keyed(s, secret) && ServerMessage(s).Some? && t.setup == s.setup && t.client == s.client && t.up == s.up
    requires t.server == ServerNextPc(s.setup, s.server) && t.down == s.down.(frames := t.down.frames)
    requires |t.down.frames| == |s.down.frames| + 1
    requires forall n :: 0 <= n <= |s.down.frames| ==> t.down.Boundary(n) == s.down.Boundary(n)
    requires s.setup.online && ServerPlace(s) < 3 ==> ServerPlace(s) + 1 < 3
    ensures Keyed(t, secret)
  {
    hide Wire.Boundary;
  }

  /** At the server's switch the response is the client's last frame, and it has all been handed out. */
  lemma AtSwitchBoth(s: State, secret: Bytes)
    requires Fine(s) && s.server.SwitchingBoth? && Keyed(s, secret)
    ensures s.setup.online && ServerPlace(s) == 3 && |s.up.frames| == 2 && |s.down.frames| == 1
    ensures s.up.handed == s.up.Boundary(2) && s.up.pending == 0 && s.up.decrypt.None? && s.down.encrypt.None?
    ensures StageAt(s.setup, 3) == KeysDone(s.setup)
  {
    hide Scripted, StageAt, SettingAt, Count, Contiguous, ClientKeeps;
    Openings(s.setup, 3);
    OpeningCounts(s.setup);
    ServerTurn(s);
    DrainedIsEmpty(s.up);
  }

  lemma SwitchBothFine(s: State, size: nat)
    requires Fine(s) && s.server.SwitchingBoth?
    ensures Fine(ServerGoes(s, size))
  {
    hide Grounded, StageAt, ClientKeeps;
    var secret :| Keyed(s, secret);
    AtSwitchBoth(s, secret);
    var t := ServerGoes(s, size);
    assert t.server == AfterKeys(s.setup) && t.up == s.up.(decrypt := t.up.decrypt) && t.down == s.down.(encrypt := t.down.encrypt);
    CiphersGround(s, t);
    assert Keyed(t, secret);
    hide Keyed;
  }

  lemma OverInPlay(s: State)
    requires Grounded(s) && StageAt(s.setup, ServerPlace(s)) == Over
    ensures s.serverSession == Setting(InPlay, s.setup.threshold)
  {
    hide Scripted, StageAt, Count, Contiguous, SettingAt;
    OverStays(s.setup, ServerPlace(s), ServerSeen(s));
    SettingSuits(s.setup, ServerSeen(s));
  }

  lemma ConfirmFine(s: State, size: nat)
    requires Fine(s) && s.server == ConfirmingPlay
    ensures Fine(ServerGoes(s, size))
  {
    hide Scripted, StageAt, SettingAt, Count, Counted, WireFine, ClientKeeps;
    OverInPlay(s);
    var secret :| Keyed(s, secret);
    var t := s.(server := ServerDone);
    assert ServerGoes(s, size) == t;
    SameGround(s, t);
    assert Keyed(t, secret);
    hide Keyed, Grounded;
  }

  lemma ServerGoesFine(s: State, size: nat)
    requires Fine(s) && Can(s, OfServer(ServerGoesOn(size)))
    ensures Fine(ServerGoes(s, size))
  {
    CompressingHas(s);
    hide Fine, ServerGoes;
    if s.server.SwitchingBoth? {
      SwitchBothFine(s, size);
    } else if s.server == ConfirmingPlay {
      ConfirmFine(s, size);
    } else {
      ServerWritesFine(s, size);
    }
  }

  lemma CompressingHas(s: State)
    requires Fine(s)
    ensures s.server == Compressing ==> s.setup.threshold.Some?
  {
    SettingSuits(s.setup, ServerPlace(s));
    hide Scripted, StageAt, SettingAt, Count, WireFine, Keyed;
  }

  /** The packet the acceptor was waiting for is the one that comes. */
  lemma ServerReacts(setup: Setup, pc: ServerPc, f: Frame, k: nat)
    requires ServerWaits(pc) && ServerKeeps(setup, pc, k) && SentBy(StageAt(setup, k), Client) && IsEntry(setup, f, k)
    ensures match pc
      case AwaitingStart => f.message.LoginStart? && ServerKeeps(setup, if setup.online then Requesting else AfterKeys(setup), k + 1)
      case AwaitingResponse =>
        && f.message.EncryptionResponse? && setup.open(f.message.sealedToken) == Some(setup.token)
        && setup.online && k == 2
      case AwaitingAcknowledgement => f.message.LoginAcknowledged? && ServerKeeps(setup, Configuring(setup.items), k + 1)
      case AwaitingPacks(rest) => f.message.KnownPacksAnswer? && ServerKeeps(setup, Configuring(rest), k + 1)
      case AwaitingFinish => f.message.ConfigurationAnswer? && ServerKeeps(setup, ConfirmingPlay, k + 1)
      case _ => true
    ensures setup.online && k == 2 ==> pc == AwaitingResponse
  {
    Openings(setup, k);
    assert StageAt(setup, k + 1) == Next(setup, StageAt(setup, k));
    hide StageAt, SettingAt;
  }

  lemma ServerWaitsStage(s: State)
    requires ServerKeeps(s.setup, s.server, ServerPlace(s)) && ServerWaits(s.server)
    ensures SentBy(StageAt(s.setup, ServerPlace(s)), Client)
  {
    hide StageAt;
  }

  /** The secret the server opens is the one the client sealed. */
  lemma OpensSecret(s: State, secret: Bytes)
    requires Grounded(s) && Keyed(s, secret) && s.setup.online && ServerPlace(s) == 2 && s.up.taken < s.up.decoded
    ensures s.up.taken == 1 && ClientPlace(s) >= 3
    ensures s.up.frames[1].message == EncryptionResponse(s.setup.seal(secret), s.setup.seal(s.setup.token))
    ensures s.setup.open(s.setup.seal(secret)) == Some(secret)
  {
    OpeningCounts(s.setup);
    KeysOrder(s);
    hide Scripted, StageAt, SettingAt, Count, Contiguous;
  }

  lemma ServerTakesFine(s: State)
    requires Fine(s) && Can(s, OfServer(ServerReads))
    ensures Fine(ServerTakes(s))
  {
    hide Scripted, StageAt, SettingAt, IsEntry, Count, Counted, WireFine, ServerKeeps, Keyed;
    var t := ServerTakes(s);
    var k := ServerPlace(s);
    ServerWaitsStage(s);
    ServerGets(s);
    ServerReacts(s.setup, s.server, s.up.frames[s.up.taken], k);
    hide ClientKeeps;
    var secret :| Keyed(s, secret);
    if s.server == AwaitingResponse {
      OpensSecret(s, secret);
      assert t == s.(server := SwitchingBoth(secret), up := s.up.(taken := s.up.taken + 1));
      SameGround(s.(up := s.up.(taken := s.up.taken + 1)), t);
      hide ServerTakes, Grounded;
      ServerChosen(s, t, secret);
    } else {
      assert t == s.(server := t.server, up := s.up.(taken := s.up.taken + 1)) && !t.server.SwitchingBoth?;
      SameGround(s.(up := s.up.(taken := s.up.taken + 1)), t);
      hide ServerTakes, Grounded;
      ReadKeyed(s, t, secret);
    }
  }

  lemma ServerChosen(s: State, t: State, secret: Bytes)
    requires Keyed(s, secret) && s.setup.online && ServerPlace(s) == 2 && ServerPlace(t) == 3 && !s.server.SwitchingBoth?
    requires t == s.(server := SwitchingBoth(secret), up := s.up.(taken := s.up.taken + 1))
    ensures Keyed(t, secret) && ServerKeeps(t.setup, t.server, ServerPlace(t))
  {
  }

  // ---- bytes -------------------------------------------------------------------------------------------------------------------

  /** A frame is decrypted where, and only where, it was encrypted. */
  lemma UpSameCipher(s: State, secret: Bytes)
    requires Grounded(s) && Keyed(s, secret) && s.up.decoded < |s.up.frames|
    requires ServerKeeps(s.setup, s.server, ServerPlace(s)) && ClientKeeps(s.setup, s.client, ClientPlace(s))
    ensures SameCipher(s.up, s.up.frames[s.up.decoded])
    ensures
      var f := s.up.frames[s.up.decoded];
      forall offset: nat :: f.start <= offset < f.start + f.size ==> CipherAt(s.up.encrypt, offset) == CipherAt(s.up.decrypt, offset)
  {
    hide Scripted, StageAt, SettingAt, Count, Contiguous;
    var n := s.up.decoded;
    BoundaryStep(s.up, n);
    if s.setup.online {
      KeysOrder(s);
      if n < 2 {
        if |s.up.frames| >= 2 { BoundaryGrows(s.up, n + 1, 2); }
      } else {
        BoundaryGrows(s.up, 2, n);
      }
    }
    hide Wire.Boundary;
  }

  lemma DownSameCipher(s: State, secret: Bytes)
    requires Grounded(s) && Keyed(s, secret) && s.down.decoded < |s.down.frames|
    requires ServerKeeps(s.setup, s.server, ServerPlace(s)) && ClientKeeps(s.setup, s.client, ClientPlace(s))
    ensures SameCipher(s.down, s.down.frames[s.down.decoded])
    ensures
      var f := s.down.frames[s.down.decoded];
      forall offset: nat :: f.start <= offset < f.start + f.size ==> CipherAt(s.down.encrypt, offset) == CipherAt(s.down.decrypt, offset)
  {
    hide Scripted, StageAt, SettingAt, Count, Contiguous;
    var n := s.down.decoded;
    BoundaryStep(s.down, n);
    if s.setup.online {
      KeysOrder(s);
      if n >= 1 { BoundaryGrows(s.down, 1, n); }
    }
    hide Wire.Boundary;
  }

  /** Moving bytes moves nothing else. */
  lemma BytesFine(s: State, from: Party, step: CarryStep)
    requires Fine(s) && CanCarry(WireFrom(s, from), step) && !step.Decode?
    ensures Fine(DoCarry(s, from, step))
  {
    hide Scripted, StageAt, SettingAt, Count, Contiguous, ServerKeeps, ClientKeeps, Keyed;
    var secret :| Keyed(s, secret);
    var t := DoCarry(s, from, step);
    BytesWire(WireFrom(s, from), step);
    BytesKeyed(s, t, secret);
    assert Grounded(t);
  }

  lemma BytesWire(w: Wire, step: CarryStep)
    requires WireFine(w) && CanCarry(w, step) && !step.Decode?
    ensures match step
      case Fetch(n) => WireFine(w.(fetched := w.fetched + n))
      case HandOut(n) => WireFine(w.(handed := w.handed + n, pending := w.fetched - (w.handed + n)))
      case Decode => true
  {
    hide Contiguous;
  }

  lemma BytesKeyed(s: State, t: State, secret: Bytes)
    requires Keyed(s, secret) && SameKeys(s, t) && t.client == s.client && t.server == s.server
    requires t.up.taken == s.up.taken && t.down.taken == s.down.taken
    ensures Keyed(t, secret)
  {
  }

  lemma ServerDecodes(s: State)
    requires Fine(s) && CanCarry(s.up, Decode)
    ensures Fine(DoCarry(s, Client, Decode))
  {
    hide Scripted, StageAt, SettingAt, Count, Contiguous, ServerKeeps, ClientKeeps, Keyed, SameCipher, Moved;
    var secret :| Keyed(s, secret);
    var d := ServerSeen(s);
    ServerNext(s);
    UpSameCipher(s, secret);
    UpEntry(s);
    MovedAlong(s.setup, d, s.up.frames[s.up.decoded].message);
    CountStep(s.setup, d, Client);
    CountStep(s.setup, d, Server);
    BoundaryStep(s.up, s.up.decoded);
    var t := DoCarry(s, Client, Decode);
    assert t == s.(up := s.up.(decoded := s.up.decoded + 1), serverSession := SettingAt(s.setup, d + 1));
    assert WireFine(t.up) by { NextBoundary(s.up); }
    BytesKeyed(s, t, secret);
    hide DoCarry, WireFine;
    assert Grounded(t);
  }

  lemma NextBoundary(w: Wire)
    requires WireFine(w) && CanCarry(w, Decode)
    ensures WireFine(w.(decoded := w.decoded + 1))
  {
    if w.decoded + 1 < |w.frames| { BoundaryStep(w, w.decoded + 1); }
  }

  lemma UpEntry(s: State)
    requires Grounded(s) && s.up.decoded < |s.up.frames|
    ensures IsEntry(s.setup, s.up.frames[s.up.decoded], ServerSeen(s))
  {
    ServerNext(s);
    hide StageAt, SettingAt, Count, Contiguous, IsEntry;
    assert Entered(s.setup, s.up.frames, Client, ServerSeen(s));
    assert Count(s.setup, ServerSeen(s), Client) == s.up.decoded;
  }

  lemma DownEntry(s: State)
    requires Grounded(s) && s.down.decoded < |s.down.frames|
    ensures IsEntry(s.setup, s.down.frames[s.down.decoded], ClientSeen(s))
  {
    ClientNext(s);
    hide StageAt, SettingAt, Count, Contiguous, IsEntry;
    assert Entered(s.setup, s.down.frames, Server, ClientSeen(s));
    assert Count(s.setup, ClientSeen(s), Server) == s.down.decoded;
  }

  lemma ClientDecodes(s: State)
    requires Fine(s) && CanCarry(s.down, Decode)
    ensures Fine(DoCarry(s, Server, Decode))
  {
    hide Scripted, StageAt, SettingAt, Count, Contiguous, ServerKeeps, ClientKeeps, Keyed, SameCipher, Moved;
    var secret :| Keyed(s, secret);
    var d := ClientSeen(s);
    ClientNext(s);
    DownSameCipher(s, secret);
    DownEntry(s);
    MovedAlong(s.setup, d, s.down.frames[s.down.decoded].message);
    CountStep(s.setup, d, Client);
    CountStep(s.setup, d, Server);
    BoundaryStep(s.down, s.down.decoded);
    var t := DoCarry(s, Server, Decode);
    assert t == s.(down := s.down.(decoded := s.down.decoded + 1), clientSession := SettingAt(s.setup, d + 1));
    assert WireFine(t.down) by { NextBoundary(s.down); }
    BytesKeyed(s, t, secret);
    hide DoCarry, WireFine;
    assert Grounded(t);
  }

  // ---- every run ------------------------------------------------------------------------------------------------------------------

  lemma StepFine(s: State, step: Step)
    requires Fine(s) && Can(s, step)
    ensures Fine(Do(s, step))
  {
    hide Fine;
    match step {
      case Carry(from, c) =>
        if !c.Decode? { BytesFine(s, from, c); }
        else if from == Client { ServerDecodes(s); }
        else { ClientDecodes(s); }
      case OfClient(ClientReads(secret)) => ClientTakesFine(s, secret);
      case OfClient(ClientGoesOn(size)) => ClientGoesFine(s, size);
      case OfServer(ServerReads) => ServerTakesFine(s);
      case OfServer(ServerGoesOn(size)) => ServerGoesFine(s, size);
    }
  }

  lemma InitFine(setup: Setup)
    requires setup.KeyPair()
    ensures Fine(Init(setup))
  {
    assert Keyed(Init(setup), []);
  }

  lemma {:induction false} RunFine(s: State, steps: seq<Step>)
    requires Fine(s) && CanAll(s, steps)
    ensures Fine(DoAll(s, steps))
    decreases |steps|
  {
    if steps != [] {
      StepFine(s, steps[0]);
      RunFine(Do(s, steps[0]), steps[1..]);
    }
  }
}
