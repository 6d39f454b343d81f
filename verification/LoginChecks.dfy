/**
 What each driver and each stream refuses (login/negotiator.go, login/acceptor.go,
 conduit.go), whoever is at the other end: every failure has its own causes, in any state.
 `LoginTheorems` says that between honest drivers none of them arises.
 */
module LoginChecks {
  import opened Wrappers
  import opened Login

  /** The states a packet's own transition is allowed in, and where it leads. */
  lemma MovesExactly(continues: bool, setting: Setting, m: Message)
    ensures
      var moved := Moved(continues, setting, m);
      && (moved.None? <==>
            || (m.SetCompression? && setting.state != InLogin) || (m.LoginAcknowledged? && setting.state != InLogin)
            || (m.LoginSuccess? && !continues && setting.state != InLogin)
            || (m.ConfigurationAnswer? && setting.state != InConfiguration))
      && (moved.Some? ==>
            && moved.value.threshold == (if m.SetCompression? then Some(m.threshold) else setting.threshold)
            && moved.value.state ==
                 if m.LoginAcknowledged? then InConfiguration
                 else if m.ConfigurationAnswer? || (m.LoginSuccess? && !continues) then InPlay
                 else setting.state)
  {
  }

  // ---- what a driver waits for ------------------------------------------------------------------

  /** The packets a client in the middle of a login knows what to do about. */
  predicate ClientKnows(f: Frame) {
    || f.message.EncryptionRequest? || f.message.SetCompression? || f.message.LoginSuccess?
    || f.message.KnownPacks? || f.message.ConfigurationFinished?
    || (f.message.Content? && f.setting.state == InConfiguration)
  }

  /** The one packet a server waits for. */
  predicate ServerExpects(pc: ServerPc, m: Message) {
    match pc
    case AwaitingStart => m.LoginStart?
    case AwaitingResponse => m.EncryptionResponse?
    case AwaitingAcknowledgement => m.LoginAcknowledged?
    case AwaitingPacks(_) => m.KnownPacksAnswer?
    case AwaitingFinish => m.ConfigurationAnswer?
    case _ => true
  }

  /** The key response opens to the token that was sent, and to a secret. */
  predicate Proves(setup: Setup, m: Message)
    requires m.EncryptionResponse?
  {
    setup.open(m.sealedToken) == Some(setup.token) && setup.open(m.secret).Some?
  }

  /** The packet a driver sends next, if it is to send one. */
  function ToSend(s: State, p: Party): Option<Message> {
    if p == Client then
      match s.client
      case Starting => Some(LoginStart)
      case Responding(secret, token) => Some(EncryptionResponse(s.setup.seal(secret), s.setup.seal(token)))
      case Acknowledging => Some(LoginAcknowledged)
      case AnsweringPacks => Some(KnownPacksAnswer)
      case AnsweringFinish => Some(ConfigurationAnswer)
      case _ => None
    else
      match s.server
      case Requesting => Some(EncryptionRequest(s.setup.token))
      case Compressing => if s.setup.threshold.Some? then Some(SetCompression(s.setup.threshold.value)) else None
      case Succeeding => Some(LoginSuccess)
      case Configuring(rest) =>
        Some(if rest == [] then ConfigurationFinished else if rest[0] == PackList then KnownPacks else Content)
      case _ => None
  }

  /** Who goes on between reads. */
  function GoesOn(step: Step): Option<Party> {
    match step
    case OfClient(ClientGoesOn(_)) => Some(Client)
    case OfServer(ServerGoesOn(_)) => Some(Server)
    case _ => None
  }

  /** The session does not allow what is to be sent. */
  predicate Disallowed(s: State, p: Party) {
    ToSend(s, p).Some? && Moved(s.setup.continues, Session(s, p), ToSend(s, p).value).None?
  }

  // ---- every failure and its causes ---------------------------------------------------------------

  predicate Because(s: State, step: Step, why: Failure)
    requires Can(s, step)
  {
    match why
    case Refused => GoesOn(step).Some? && Disallowed(s, GoesOn(step).value)
    case AlreadyEncrypted =>
      || (GoesOn(step) == Some(Client) && s.client.SwitchingIn? && s.down.decrypt.Some?)
      || (GoesOn(step) == Some(Client) && s.client.SwitchingOut? && s.up.encrypt.Some?)
      || (GoesOn(step) == Some(Server) && s.server.SwitchingBoth? && (s.up.decrypt.Some? || s.down.encrypt.Some?))
    case Overrun =>
      || (GoesOn(step) == Some(Client) && s.client.SwitchingIn? && s.down.decrypt.None? && s.down.pending > 0)
      || (GoesOn(step) == Some(Server) && s.server.SwitchingBoth? && s.up.decrypt.None? && s.down.encrypt.None? && s.up.pending > 0)
    case Garbled =>
      step.Carry? && step.carry == Decode
      && var w, reader := WireFrom(s, step.from), Other(step.from);
         var f := w.frames[w.decoded];
         || !SameCipher(w, f) || f.setting != Session(s, reader)
         || Moved(s.setup.continues, Session(s, reader), f.message).None?
    case Unexpected =>
      || (step.OfClient? && step.client.ClientReads? && !ClientKnows(s.down.frames[s.down.taken]))
      || (step == OfServer(ServerReads) && !ServerExpects(s.server, s.up.frames[s.up.taken].message))
      || (GoesOn(step) == Some(Server) && s.server == ConfirmingPlay && s.serverSession.state != InPlay)
      || (GoesOn(step) == Some(Server) && s.server == Compressing && s.setup.threshold.None?)
    case BadToken =>
      && step == OfServer(ServerReads) && s.server == AwaitingResponse
      && s.up.frames[s.up.taken].message.EncryptionResponse? && !Proves(s.setup, s.up.frames[s.up.taken].message)
  }

  lemma CarryFails(s: State, step: Step, why: Failure)
    requires Can(s, step) && step.Carry?
    ensures Do(s, step).failed == Some(why) <==> Because(s, step, why)
  {
    hide SameCipher, Moved;
  }

  lemma ClientFails(s: State, step: Step, why: Failure)
    requires Can(s, step) && step.OfClient?
    ensures Do(s, step).failed == Some(why) <==> Because(s, step, why)
  {
    hide SameCipher, Moved;
  }

  lemma ServerFails(s: State, step: Step, why: Failure)
    requires Can(s, step) && step.OfServer?
    ensures Do(s, step).failed == Some(why) <==> Because(s, step, why)
  {
    hide SameCipher, Moved;
  }

  /** A login fails in this way by exactly these causes; whatever else happens, it goes on. */
  lemma FailsExactly(s: State, step: Step, why: Failure)
    requires Can(s, step)
    ensures Do(s, step).failed == Some(why) <==> Because(s, step, why)
  {
    hide Do, Because;
    match step {
      case Carry(_, _) => CarryFails(s, step, why);
      case OfClient(_) => ClientFails(s, step, why);
      case OfServer(_) => ServerFails(s, step, why);
    }
  }

  /** What the conduit has recorded as unread is what was unread when it last handed anything out. */
  lemma UnreadRecorded(s: State, step: Step, from: Party)
    requires Can(s, step)
    ensures
      var w, v := WireFrom(s, from), WireFrom(Do(s, step), from);
      v.pending == if step.Carry? && step.from == from && step.carry.HandOut? then v.fetched - v.handed else w.pending
  {
    hide SameCipher, Moved;
  }

  predicate SameCiphers(w: Wire, v: Wire) {
    v.encrypt == w.encrypt && v.decrypt == w.decrypt
  }

  /** A login that fails installs no cipher as it does: of a server's two halves, both or neither. */
  lemma FailsSwitchingNothing(s: State, step: Step)
    requires Can(s, step) && Do(s, step).failed.Some?
    ensures SameCiphers(s.up, Do(s, step).up) && SameCiphers(s.down, Do(s, step).down)
  {
    hide SameCipher, Moved;
  }

  /**
   No server goes on past the key exchange, in any state and with any client, but with a
   response that holds its own token; and the secret it then installs is the one sealed in it.
   */
  lemma ProvedFirst(s: State, step: Step)
    requires Can(s, step) && !s.server.SwitchingBoth? && Do(s, step).server.SwitchingBoth?
    ensures step == OfServer(ServerReads) && s.server == AwaitingResponse
    ensures
      var m := s.up.frames[s.up.taken].message;
      && m.EncryptionResponse? && s.setup.open(m.sealedToken) == Some(s.setup.token)
      && s.setup.open(m.secret) == Some(Do(s, step).server.secret)
  {
    hide SameCipher, Moved;
  }
}
