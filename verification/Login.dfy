/**
 A login between the client driver (login/negotiator.go) and the server driver
 (login/acceptor.go) over two byte channels.

 Each direction is a `Wire`: the frames its writer put on the transport, and how far
 its reader has got with them, counted in bytes as the conduit counts them and in
 frames as the stream does. A cipher switch is a byte offset on each end. A frame is
 encoded, and later decoded, under the session setting of that moment: the connection
 state and the compression threshold. Every way the source can fail inside a login is
 a `Failure`. Frame sizes, delivery and scheduling are the environment's choice.
 */
module Login {
  import opened Wrappers

  type Bytes = seq<nat>

  datatype Party = Client | Server

  datatype Conn = InLogin | InConfiguration | InPlay

  datatype Setting = Setting(state: Conn, threshold: Option<nat>)

  /** What a server puts into the configuration state. The answer to a pack list is read before it goes on. */
  datatype Item = RegistryContent | PackList

  /**
   One login. `continues` tells protocol 775, whose login goes on after success, from
   protocol 47; `seal` and `open` are the server key's two halves.
   */
  datatype Setup = Setup(
    online: bool,
    continues: bool,
    threshold: Option<nat>,
    items: seq<Item>,
    token: Bytes,
    seal: Bytes -> Bytes,
    open: Bytes -> Option<Bytes>)
  {
    ghost predicate KeyPair() {
      forall plain :: open(seal(plain)) == Some(plain)
    }
  }

  datatype Message =
    | LoginStart
    | EncryptionRequest(token: Bytes)
    | EncryptionResponse(secret: Bytes, sealedToken: Bytes)
    | SetCompression(threshold: nat)
    | LoginSuccess
    | LoginAcknowledged
    | Content
    | KnownPacks
    | KnownPacksAnswer
    | ConfigurationFinished
    | ConfigurationAnswer

  datatype Failure = Overrun | AlreadyEncrypted | Garbled | Unexpected | BadToken | Refused

  // ---- one direction --------------------------------------------------------------------------

  datatype Frame = Frame(message: Message, setting: Setting, start: nat, size: nat) {
    function End(): nat {
      start + size
    }
  }

  datatype Switch = Switch(from: nat, key: Bytes)

  datatype Wire = Wire(
    frames: seq<Frame>,       // written to the transport
    encrypt: Option<Switch>,
    fetched: nat,             // bytes the buffered reader has taken from the transport
    handed: nat,              // bytes the conduit has handed out
    pending: nat,             // what the conduit last recorded as unread
    decoded: nat,             // frames decoded
    taken: nat,               // packets the driver has read
    decrypt: Option<Switch>)
  {
    function Boundary(n: nat): nat
      requires n <= |frames|
    {
      if n == 0 then 0 else frames[n - 1].End()
    }

    function Total(): nat {
      Boundary(|frames|)
    }
  }

  /** The cipher, and where it began, that covers the byte at an offset. */
  function CipherAt(half: Option<Switch>, offset: nat): Option<Switch> {
    if half.Some? && half.value.from <= offset then half else None
  }

  /** Every byte of the frame is decrypted with the cipher that encrypted it, at the same position. */
  predicate SameCipher(w: Wire, f: Frame) {
    forall offset: nat :: f.start <= offset < f.End() ==> CipherAt(w.encrypt, offset) == CipherAt(w.decrypt, offset)
  }

  // ---- sessions -----------------------------------------------------------------------------------

  /** The setting after a packet's own transition; none if the packet has no business in this state. */
  function Moved(continues: bool, setting: Setting, m: Message): Option<Setting> {
    match m
    case SetCompression(t) => if setting.state == InLogin then Some(setting.(threshold := Some(t))) else None
    case LoginSuccess =>
      if continues then Some(setting)
      else if setting.state == InLogin then Some(setting.(state := InPlay)) else None
    case LoginAcknowledged => if setting.state == InLogin then Some(setting.(state := InConfiguration)) else None
    case ConfigurationAnswer => if setting.state == InConfiguration then Some(setting.(state := InPlay)) else None
    case _ => Some(setting)
  }

  // ---- the drivers -----------------------------------------------------------------------------------

  datatype ClientPc =
    | Starting
    | Reading
    | SwitchingIn(secret: Bytes, token: Bytes)
    | Responding(secret: Bytes, token: Bytes)
    | SwitchingOut(secret: Bytes)
    | Acknowledging
    | AnsweringPacks
    | AnsweringFinish
    | ClientDone

  datatype ServerPc =
    | AwaitingStart
    | Requesting
    | AwaitingResponse
    | SwitchingBoth(secret: Bytes)
    | Compressing
    | Succeeding
    | AwaitingAcknowledgement
    | Configuring(rest: seq<Item>)
    | AwaitingPacks(rest: seq<Item>)
    | AwaitingFinish
    | ConfirmingPlay
    | ServerDone

  datatype State = State(
    setup: Setup,
    client: ClientPc,
    server: ServerPc,
    clientSession: Setting,
    serverSession: Setting,
    up: Wire,     // client to server
    down: Wire,   // server to client
    failed: Option<Failure>)

  function Init(setup: Setup): State {
    var quiet := Wire([], None, 0, 0, 0, 0, 0, None);
    var start := Setting(InLogin, None);
    State(setup, Starting, AwaitingStart, start, start, quiet, quiet, None)
  }

  function WireFrom(s: State, p: Party): Wire {
    if p == Client then s.up else s.down
  }

  function SetWire(s: State, p: Party, w: Wire): State {
    if p == Client then s.(up := w) else s.(down := w)
  }

  function Session(s: State, p: Party): Setting {
    if p == Client then s.clientSession else s.serverSession
  }

  function SetSession(s: State, p: Party, setting: Setting): State {
    if p == Client then s.(clientSession := setting) else s.(serverSession := setting)
  }

  function Fail(s: State, why: Failure): State {
    s.(failed := Some(why))
  }

  /** Stream.Write: the frame is on the wire and its transition committed when the call returns. */
  function Send(s: State, p: Party, m: Message, size: nat): State {
    var w := WireFrom(s, p);
    var moved := Moved(s.setup.continues, Session(s, p), m);
    if moved.None? then Fail(s, Refused)
    else
      var f := Frame(m, Session(s, p), w.Total(), size);
      SetSession(SetWire(s, p, w.(frames := w.frames + [f])), p, moved.value)
  }

  /** Installing an inbound cipher: refused twice over, and while anything read is unread. */
  function SwitchIn(s: State, from: Party, secret: Bytes): State {
    var w := WireFrom(s, from);
    if w.decrypt.Some? then Fail(s, AlreadyEncrypted)
    else if w.pending > 0 then Fail(s, Overrun)
    else SetWire(s, from, w.(decrypt := Some(Switch(w.handed, secret))))
  }

  function SwitchOut(s: State, p: Party, secret: Bytes): State {
    var w := WireFrom(s, p);
    if w.encrypt.Some? then Fail(s, AlreadyEncrypted)
    else SetWire(s, p, w.(encrypt := Some(Switch(w.Total(), secret))))
  }

  // ---- steps --------------------------------------------------------------------------------------------

  datatype CarryStep = Fetch(bytes: nat) | HandOut(bytes: nat) | Decode

  datatype ClientStep = ClientReads(secret: Bytes) | ClientGoesOn(size: nat)

  datatype ServerStep = ServerReads | ServerGoesOn(size: nat)

  datatype Step =
    | Carry(from: Party, carry: CarryStep)
    | OfClient(client: ClientStep)
    | OfServer(server: ServerStep)

  predicate CanCarry(w: Wire, step: CarryStep) {
    match step
    // Only an empty buffer goes to the transport, and only for a frame not yet whole.
    case Fetch(n) =>
      n > 0 && w.fetched == w.handed && w.fetched + n <= w.Total()
      && w.decoded < |w.frames| && w.handed < w.Boundary(w.decoded + 1)
    // The framer never asks past the end of the frame it is reading.
    case HandOut(n) =>
      n > 0 && w.handed + n <= w.fetched && w.decoded < |w.frames| && w.handed + n <= w.Boundary(w.decoded + 1)
    case Decode => w.decoded < |w.frames| && w.handed == w.Boundary(w.decoded + 1)
  }

  predicate ClientWaits(pc: ClientPc) {
    pc == Reading
  }

  predicate ServerWaits(pc: ServerPc) {
    pc == AwaitingStart || pc == AwaitingResponse || pc == AwaitingAcknowledgement || pc.AwaitingPacks? || pc == AwaitingFinish
  }

  predicate Can(s: State, step: Step) {
    && s.failed.None?
    && match step
       case Carry(from, c) => CanCarry(WireFrom(s, from), c)
       case OfClient(ClientReads(secret)) =>
         ClientWaits(s.client) && s.down.taken < s.down.decoded && s.down.taken < |s.down.frames| && secret != []
       case OfClient(ClientGoesOn(size)) => !ClientWaits(s.client) && s.client != ClientDone && size > 0
       case OfServer(ServerReads) => ServerWaits(s.server) && s.up.taken < s.up.decoded && s.up.taken < |s.up.frames|
       case OfServer(ServerGoesOn(size)) => !ServerWaits(s.server) && s.server != ServerDone && size > 0
  }

  function Other(p: Party): Party {
    if p == Client then Server else Client
  }

  /** The reader of the wire moves bytes, or its stream decodes the frame it has. */
  function DoCarry(s: State, from: Party, step: CarryStep): State
    requires CanCarry(WireFrom(s, from), step)
  {
    var w := WireFrom(s, from);
    match step
    case Fetch(n) => SetWire(s, from, w.(fetched := w.fetched + n))
    case HandOut(n) =>
      SetWire(s, from, w.(handed := w.handed + n, pending := w.fetched - (w.handed + n)))
    case Decode =>
      var f := w.frames[w.decoded];
      var reader := Other(from);
      var moved := Moved(s.setup.continues, Session(s, reader), f.message);
      if !SameCipher(w, f) || f.setting != Session(s, reader) || moved.None? then Fail(s, Garbled)
      else SetSession(SetWire(s, from, w.(decoded := w.decoded + 1)), reader, moved.value)
  }

  /** What the negotiator's loop does about a packet, given the state it was decoded in. */
  function Reaction(setup: Setup, m: Message, state: Conn, secret: Bytes): Option<ClientPc> {
    match m
    case EncryptionRequest(token) => Some(SwitchingIn(secret, token))
    case SetCompression(_) => Some(Reading)
    case LoginSuccess => Some(if setup.continues then Acknowledging else ClientDone)
    case KnownPacks => Some(AnsweringPacks)
    case ConfigurationFinished => Some(AnsweringFinish)
    case Content => if state == InConfiguration then Some(Reading) else None
    case _ => None
  }

  /** One turn of the negotiator's loop. */
  function ClientTakes(s: State, secret: Bytes): State
    requires s.down.taken < |s.down.frames|
  {
    var f := s.down.frames[s.down.taken];
    var pc := Reaction(s.setup, f.message, f.setting.state, secret);
    if pc.None? then Fail(s, Unexpected)
    else s.(client := pc.value, down := s.down.(taken := s.down.taken + 1))
  }

  /** The negotiator between reads: write, or switch a half of the cipher. */
  function ClientGoes(s: State, size: nat): State {
    match s.client
    case Starting => Send(s, Client, LoginStart, size).(client := Reading)
    case SwitchingIn(secret, token) => SwitchIn(s, Server, secret).(client := Responding(secret, token))
    case Responding(secret, token) =>
      Send(s, Client, EncryptionResponse(s.setup.seal(secret), s.setup.seal(token)), size).(client := SwitchingOut(secret))
    case SwitchingOut(secret) => SwitchOut(s, Client, secret).(client := Reading)
    case Acknowledging => Send(s, Client, LoginAcknowledged, size).(client := Reading)
    case AnsweringPacks => Send(s, Client, KnownPacksAnswer, size).(client := Reading)
    case AnsweringFinish => Send(s, Client, ConfigurationAnswer, size).(client := ClientDone)
    case _ => s
  }

  function AfterKeys(setup: Setup): ServerPc {
    if setup.threshold.Some? then Compressing else Succeeding
  }

  /** What the acceptor makes of the packet it was waiting for. */
  function ServerTakes(s: State): State
    requires s.up.taken < |s.up.frames|
  {
    var f := s.up.frames[s.up.taken];
    var t := s.(up := s.up.(taken := s.up.taken + 1));
    match s.server
    case AwaitingStart =>
      if f.message.LoginStart? then t.(server := if s.setup.online then Requesting else AfterKeys(s.setup))
      else Fail(s, Unexpected)
    case AwaitingResponse =>
      if !f.message.EncryptionResponse? then Fail(s, Unexpected)
      else if s.setup.open(f.message.sealedToken) != Some(s.setup.token) then Fail(s, BadToken)
      else
        var secret := s.setup.open(f.message.secret);
        if secret.None? then Fail(s, BadToken) else t.(server := SwitchingBoth(secret.value))
    case AwaitingAcknowledgement =>
      if f.message.LoginAcknowledged? then t.(server := Configuring(s.setup.items)) else Fail(s, Unexpected)
    case AwaitingPacks(rest) =>
      if f.message.KnownPacksAnswer? then t.(server := Configuring(rest)) else Fail(s, Unexpected)
    case AwaitingFinish =>
      if f.message.ConfigurationAnswer? then t.(server := ConfirmingPlay) else Fail(s, Unexpected)
    case _ => s
  }

  /** The acceptor between reads. */
  function ServerGoes(s: State, size: nat): State {
    match s.server
    case Requesting => Send(s, Server, EncryptionRequest(s.setup.token), size).(server := AwaitingResponse)
    case SwitchingBoth(secret) =>
      if s.up.decrypt.Some? || s.down.encrypt.Some? then Fail(s, AlreadyEncrypted)
      else if s.up.pending > 0 then Fail(s, Overrun)
      else SwitchOut(SwitchIn(s, Client, secret), Server, secret).(server := AfterKeys(s.setup))
    case Compressing =>
      if s.setup.threshold.None? then Fail(s, Unexpected)
      else Send(s, Server, SetCompression(s.setup.threshold.value), size).(server := Succeeding)
    case Succeeding =>
      Send(s, Server, LoginSuccess, size).(server := if s.setup.continues then AwaitingAcknowledgement else ConfirmingPlay)
    case Configuring(rest) =>
      if rest == [] then Send(s, Server, ConfigurationFinished, size).(server := AwaitingFinish)
      else if rest[0] == PackList then Send(s, Server, KnownPacks, size).(server := AwaitingPacks(rest[1..]))
      else Send(s, Server, Content, size).(server := Configuring(rest[1..]))
    case ConfirmingPlay => if s.serverSession.state == InPlay then s.(server := ServerDone) else Fail(s, Unexpected)
    case _ => s
  }

  function Do(s: State, step: Step): State
    requires Can(s, step)
  {
    match step
    case Carry(from, c) => DoCarry(s, from, c)
    case OfClient(ClientReads(secret)) => ClientTakes(s, secret)
    case OfClient(ClientGoesOn(size)) => ClientGoes(s, size)
    case OfServer(ServerReads) => ServerTakes(s)
    case OfServer(ServerGoesOn(size)) => ServerGoes(s, size)
  }

  predicate CanAll(s: State, steps: seq<Step>)
    decreases |steps|
  {
    steps == [] || (Can(s, steps[0]) && CanAll(Do(s, steps[0]), steps[1..]))
  }

  function DoAll(s: State, steps: seq<Step>): State
    requires CanAll(s, steps)
    decreases |steps|
  {
    if steps == [] then s else DoAll(Do(s, steps[0]), steps[1..])
  }
}
