/**
 The managed stream as a state machine (stream_runtime.go, observation.go, stream.go).

 One coordinator, a read pump, a write pump, an observation dispatcher, any number
 of Write calls and any number of Read calls share one budget, one processing slot
 and one stop signal. Each mutex section and each channel operation is one step;
 a step's own fields are the choices its environment makes. What a peer sends, what
 the session answers, when a context ends and when somebody closes the stream are
 all such choices, so a run is any sequence of enabled steps.

 Stopping is two steps, because the source closes the stop channel before it closes
 the budget and everything else may run in between.
 */
module Stream {
  import opened Wrappers
  import opened Budget

  /** The item bound is also the capacity of the Read queue and of the record channel. */
  datatype Config = Config(maxItems: nat, maxBytes: nat, sink: bool)

  // ---- what travels -----------------------------------------------------------------

  /** One decoded packet: the frame it came in, its payload length, whether it commits a transition. */
  datatype Arrival = Arrival(frame: nat, size: nat, commits: bool)

  datatype Pending = Pending(arrival: Arrival, request: nat)

  datatype Stage = RawFrame | PacketBody | Secret | Rejected

  datatype Input = Input(frame: nat, inbound: bool, stage: Stage, bytes: nat)

  datatype Record = Record(sequence: nat, input: Input)

  /** One built frame given to the write pump; `turn` is its place in acceptance order. */
  datatype Job = CallJob(call: nat, turn: nat, frame: nat, commits: bool) | GoodbyeJob(frame: nat)

  // ---- one Write call -----------------------------------------------------------------

  datatype Outcome =
    | Sent                // the pump wrote the whole frame
    | RefusedBySession    // encoding, transition or framing failed
    | ContextEnded
    | AmbiguousWrite
    | StreamEnded
    | NoBudget
    | TransportFailed
    | NotRecorded         // written, but the observation failed

  datatype CallState = Queued | Started | Abandoned

  datatype Phase = Acquiring(request: nat) | Offering | Accepted | Returned(outcome: Outcome)

  datatype Call = Call(phase: Phase, state: CallState, result: Option<Outcome>)

  // ---- the goroutines -------------------------------------------------------------------

  datatype WritePump = WriterIdle | Writing(job: Job) | WriterHalted

  datatype ReadPump = Parked | Reading | HoldingFrame | ReaderHalted

  datatype Dispatcher = Idle | Delivering(record: Record, last: bool) | Draining | DispatcherHalted

  /** What the coordinator goes on to do once an observation has been made or refused. */
  datatype Next =
    | DecodeNext(frame: nat)
    | QueueNext(arrival: Arrival)
    | RefuseNext(call: nat)
    | ForgetNext(call: nat)
    | SentRawNext(call: nat, frame: nat, body: nat)
    | SentNext(call: nat)
    | GoodbyeRawNext(frame: nat, body: nat)
    | GoodbyeNext
    | ControlNext

  /** Where the coordinator is. */
  datatype Work =
    | Select
    | Observing(input: Input, next: Next)
    | ObserveWait(input: Input, request: nat, next: Next)
    | ObserveSend(record: Record, next: Next)
    | ObserveFailed(next: Next)
    | Decoding(frame: nat)
    | Queueing(arrival: Arrival)
    | QueueRefused(arrival: Arrival)
    | Charging(arrival: Arrival, last: bool)
    | HandingOver(arrival: Arrival, last: bool)
    | SendingPending
    | HandOff
    | HandOffCancel
    | HandOffSend
    | Encoding(call: nat)
    | Beginning(call: nat, frame: nat, commits: bool)
    | Handing(call: nat, frame: nat, commits: bool)
    | Awaiting(call: nat, frame: nat, commits: bool)
    | Releasing(last: bool)
    | Disconnecting
    | GoodbyeHanding(frame: nat)
    | GoodbyeAwaiting(frame: nat)
    | Halted

  // ---- the state ----------------------------------------------------------------------------

  datatype Outbound = Outbound(
    calls: seq<Call>,
    accepted: seq<nat>,     // history: calls in the order the coordinator took them
    handed: seq<Job>,       // history: frames the write pump took
    wire: seq<Job>,         // history: frames written whole
    pump: WritePump,
    result: Option<bool>)   // the outcome of the last job, until the coordinator reads it

  datatype Inbound = Inbound(
    reader: ReadPump,
    slot: bool,             // the processing token is in its channel
    decoded: seq<Arrival>,  // history: packets decoded, in order
    pending: Option<Pending>,
    queue: seq<Arrival>,    // the Read queue
    received: seq<Arrival>, // history: packets Read has taken, in order
    taken: seq<Arrival>,    // taken by a Read that has yet to release their charge
    ended: bool)            // some Read has reported termination

  datatype Recording = Recording(
    sequence: nat,
    channel: seq<Record>,
    dispatcher: Dispatcher,
    delivered: seq<Record>, // history: records the sink was given
    finishing: bool)        // observationsDone is closed

  datatype State = State(
    cfg: Config,
    budget: Allowance,
    stopping: bool,
    done: bool,
    frames: nat,            // frameCounter
    applied: set<nat>,      // history: frames whose transition was committed
    work: Work,
    out: Outbound,
    inb: Inbound,
    rec: Recording)

  function Init(cfg: Config): (s: State)
    ensures s.budget.Sound()
  {
    State(cfg, New(cfg.maxItems, cfg.maxBytes), false, false, 0, {}, Select,
          Outbound([], [], [], [], WriterIdle, None),
          Inbound(Parked, true, [], None, [], [], [], false),
          Recording(0, [], if cfg.sink then Idle else DispatcherHalted, [], false))
  }

  // ---- steps ----------------------------------------------------------------------------------

  /** A Write call, from its own goroutine. */
  datatype CallStep =
    | Enter
    | NoticeGrant(call: nat)
    | GiveUpWaiting(call: nat)
    | GiveUpOffering(call: nat, contextEnded: bool)
    | TakeResult(call: nat)
    | GiveUpAccepted(call: nat)

  /** A Read call. */
  datatype ReadStep =
    | Take
    | ReturnCharge(index: nat)
    | ReportEnd

  /** The two pumps. */
  datatype PumpStep =
    | TakeSlot
    | FrameRead
    | ReadFails(expected: bool)
    | ReaderStops
    | WriteEnds(ok: bool)
    | WriterStops

  /** The coordinator taking work. */
  datatype SelectStep =
    | AcceptFrame(bytes: nat)
    | AcceptCall(call: nat)
    | AcceptControl(bytes: nat)
    | AcceptShutdown
    | NoticePending
    | NoticeStop
    | SnapshotStops

  /** The coordinator submitting a record. */
  datatype ObserveStep =
    | Ask
    | Granted
    | StopWaiting
    | Push
    | StopSending
    | Resume

  datatype DecodeResult = DecodeFails | TransitionFails | Decoded(size: nat, commits: bool, bytes: nat)

  /** The coordinator handling an arrival. */
  datatype ArrivalStep =
    | Decode(result: DecodeResult)
    | ReserveQueue
    | QueueClosed
    | ChargeArrival
    | HandOver
    | SendPending
    | SendStopped
    | CheckHandOff
    | CancelHandOff
    | SendHandOff

  datatype EncodeResult = EncodeFails(bytes: nat) | Encoded(commits: bool)

  /** The coordinator handling a write, or saying goodbye. */
  datatype WriteStep =
    | Encode(encoded: EncodeResult)
    | Begin(bytes: nat)
    | Hand
    | HandStopped
    | ReadResult(raw: nat, body: nat)
    | ReleaseCall
    | BuildGoodbye(supported: bool, built: bool)
    | HandGoodbye
    | GoodbyeResult(goodbyeRaw: nat, goodbyeBody: nat)
    | GoodbyeGivenUp(goodbyeContext: bool)

  /** The dispatcher. */
  datatype DispatchStep =
    | TakeRecord
    | Deliver(accepted: bool)
    | StartDraining
    | Drained
    | DispatcherStops

  /** Ending. */
  datatype EndStep =
    | Stop                  // Close, a cancelled context, an expired shutdown
    | CloseBudget
    | FinishObserving       // the coordinator has returned
    | StopAfterDrain        // the dispatcher has returned
    | Finish                // every goroutine has returned

  datatype Step =
    | OfCall(call: CallStep)
    | OfRead(read: ReadStep)
    | OfPump(pump: PumpStep)
    | OfSelect(select: SelectStep)
    | OfObserve(observe: ObserveStep)
    | OfArrival(arrival: ArrivalStep)
    | OfWrite(write: WriteStep)
    | OfDispatch(dispatch: DispatchStep)
    | OfEnd(end: EndStep)

  // ---- a Write call -------------------------------------------------------------------------------

  function SetCall(s: State, w: nat, c: Call): State {
    if w < |s.out.calls| then s.(out := s.out.(calls := s.out.calls[w := c])) else s
  }

  function GetCall(s: State, w: nat): Call {
    if w < |s.out.calls| then s.out.calls[w] else Call(Returned(NoBudget), Abandoned, None)
  }

  /** The result channel holds one outcome; a second is discarded. */
  function Report(s: State, w: nat, o: Outcome): State {
    var c := GetCall(s, w);
    if c.result.Some? then s else SetCall(s, w, c.(result := Some(o)))
  }

  predicate CanCall(s: State, step: CallStep) {
    match step
    case Enter => true
    case NoticeGrant(w) =>
      && w < |s.out.calls| && s.out.calls[w].phase.Acquiring?
      && s.out.calls[w].phase.request < |s.budget.requests|
      && s.budget.requests[s.out.calls[w].phase.request].ready
    case GiveUpWaiting(w) =>
      && w < |s.out.calls| && s.out.calls[w].phase.Acquiring?
      && s.out.calls[w].phase.request < |s.budget.requests|
    case GiveUpOffering(w, contextEnded) =>
      w < |s.out.calls| && s.out.calls[w].phase.Offering? && (contextEnded || s.stopping)
    case TakeResult(w) =>
      w < |s.out.calls| && s.out.calls[w].phase.Accepted? && s.out.calls[w].result.Some?
    case GiveUpAccepted(w) => w < |s.out.calls| && s.out.calls[w].phase.Accepted?
  }

  function DoCall(s: State, step: CallStep): (t: State)
    requires s.budget.Sound() && CanCall(s, step)
    ensures t.budget.Sound()
  {
    match step
    case Enter =>
      var (b, r) := Reserve(s.budget, 1, 0);
      var c := Call(if r.Ok? then Acquiring(r.value) else Returned(NoBudget), Queued, None);
      s.(budget := b, out := s.out.(calls := s.out.calls + [c]))
    case NoticeGrant(w) =>
      var c := s.out.calls[w];
      if s.budget.requests[c.phase.request].granted
      then SetCall(s, w, c.(phase := Offering))
      else SetCall(s, w, c.(phase := Returned(StreamEnded)))
    case GiveUpWaiting(w) =>
      var c := s.out.calls[w];
      SetCall(s.(budget := Cancel(s.budget, c.phase.request)), w, c.(phase := Returned(ContextEnded)))
    case GiveUpOffering(w, contextEnded) =>
      var c := s.out.calls[w];
      SetCall(s.(budget := Release(s.budget, 1, 0)), w,
              c.(phase := Returned(if contextEnded then ContextEnded else StreamEnded)))
    case TakeResult(w) =>
      var c := s.out.calls[w];
      SetCall(s, w, c.(phase := Returned(c.result.value)))
    case GiveUpAccepted(w) =>
      var c := s.out.calls[w];
      if c.state == Queued
      then SetCall(s, w, c.(state := Abandoned, phase := Returned(ContextEnded)))
      else SetCall(s, w, c.(phase := Returned(AmbiguousWrite))).(stopping := true)
  }

  // ---- a Read call ---------------------------------------------------------------------------------

  predicate CanRead(s: State, step: ReadStep) {
    match step
    case Take => s.inb.queue != []
    case ReturnCharge(k) => k < |s.inb.taken|
    case ReportEnd => s.done && s.inb.queue == []
  }

  function DoRead(s: State, step: ReadStep): (t: State)
    requires s.budget.Sound() && CanRead(s, step)
    ensures t.budget.Sound()
  {
    match step
    case Take =>
      var a := s.inb.queue[0];
      s.(inb := s.inb.(queue := s.inb.queue[1..], received := s.inb.received + [a], taken := s.inb.taken + [a]))
    case ReturnCharge(k) =>
      var a := s.inb.taken[k];
      s.(budget := Release(s.budget, 1, a.size),
         inb := s.inb.(taken := s.inb.taken[..k] + s.inb.taken[k + 1..]))
    case ReportEnd => s.(inb := s.inb.(ended := true))
  }

  // ---- the pumps -------------------------------------------------------------------------------------

  predicate CanPump(s: State, step: PumpStep) {
    match step
    case TakeSlot => s.inb.reader == Parked && s.inb.slot
    case FrameRead => s.inb.reader == Reading
    case ReadFails(expected) =>
      s.inb.reader == Reading && (expected ==> s.stopping || (s.rec.finishing && s.rec.dispatcher == DispatcherHalted))
    case ReaderStops => s.stopping && (s.inb.reader == Parked || s.inb.reader == HoldingFrame)
    case WriteEnds(_) => s.out.pump.Writing?
    case WriterStops => s.stopping && s.out.pump == WriterIdle
  }

  function DoPump(s: State, step: PumpStep): State
    requires CanPump(s, step)
  {
    match step
    case TakeSlot => s.(inb := s.inb.(reader := Reading, slot := false))
    case FrameRead => s.(inb := s.inb.(reader := HoldingFrame))
    case ReadFails(expected) =>
      s.(inb := s.inb.(reader := ReaderHalted, slot := true), stopping := s.stopping || !expected)
    case ReaderStops =>
      s.(inb := s.inb.(reader := ReaderHalted, slot := s.inb.slot || s.inb.reader == HoldingFrame))
    case WriteEnds(ok) =>
      var j := s.out.pump.job;
      s.(out := s.out.(pump := WriterIdle, result := Some(ok), wire := if ok then s.out.wire + [j] else s.out.wire))
    case WriterStops => s.(out := s.out.(pump := WriterHalted))
  }

  // ---- the coordinator taking work ---------------------------------------------------------------------

  predicate CanSelect(s: State, step: SelectStep) {
    && s.work == Select
    && match step
       case AcceptFrame(_) => s.inb.pending.None? && s.inb.reader == HoldingFrame
       case AcceptCall(w) => w < |s.out.calls| && s.out.calls[w].phase.Offering?
       case AcceptControl(_) => true
       case AcceptShutdown => true
       case NoticePending =>
         && s.inb.pending.Some?
         && s.inb.pending.value.request < |s.budget.requests|
         && s.budget.requests[s.inb.pending.value.request].ready
       case NoticeStop => s.stopping
       case SnapshotStops => s.stopping
  }

  function DoSelect(s: State, step: SelectStep): State
    requires CanSelect(s, step)
  {
    match step
    case AcceptFrame(bytes) =>
      var f := s.frames + 1;
      s.(frames := f, inb := s.inb.(reader := Parked),
         work := Observing(Input(f, true, RawFrame, bytes), DecodeNext(f)))
    case AcceptCall(w) =>
      SetCall(s.(out := s.out.(accepted := s.out.accepted + [w]), work := Encoding(w)),
              w, s.out.calls[w].(phase := Accepted))
    case AcceptControl(bytes) => s.(work := Observing(Input(s.frames, false, Secret, bytes), ControlNext))
    case AcceptShutdown => s.(work := Disconnecting)
    case NoticePending =>
      if s.budget.requests[s.inb.pending.value.request].granted
      then s.(work := SendingPending)
      else s.(work := Halted, stopping := true)
    case NoticeStop => s.(work := if s.inb.pending.Some? then HandOff else Halted)
    case SnapshotStops => s.(work := Halted)
  }

  // ---- the coordinator submitting a record -------------------------------------------------------------

  /** The record was submitted, or there is no sink. */
  function Recorded(s: State, next: Next): State {
    match next
    case DecodeNext(f) => s.(work := Decoding(f))
    case QueueNext(a) => s.(work := Queueing(a))
    case RefuseNext(w) => Report(s, w, RefusedBySession).(work := Releasing(false))
    case ForgetNext(w) => s.(work := Releasing(false))
    case SentRawNext(w, f, body) => s.(work := Observing(Input(f, false, PacketBody, body), SentNext(w)))
    case SentNext(w) => Report(s, w, Sent).(work := Releasing(false))
    case GoodbyeRawNext(f, body) => s.(work := Observing(Input(f, false, PacketBody, body), GoodbyeNext))
    case GoodbyeNext => s.(work := Halted)
    case ControlNext => s.(work := Select)
  }

  /** The record was refused. What that means depends on whether the stream is ending. */
  function NotSubmitted(s: State, next: Next): State {
    match next
    case DecodeNext(f) => if s.stopping then s.(work := Decoding(f)) else s.(work := Halted, stopping := true)
    case QueueNext(a) => if s.stopping then s.(work := Queueing(a)) else s.(work := Halted, stopping := true)
    case RefuseNext(w) => Report(s, w, RefusedBySession).(work := Releasing(false))
    case ForgetNext(w) => s.(work := Releasing(false))
    case SentRawNext(w, _, _) =>
      if s.stopping then Report(s, w, Sent).(work := Releasing(false))
      else Report(s, w, NotRecorded).(work := Releasing(true), stopping := true)
    case SentNext(w) =>
      if s.stopping then Report(s, w, Sent).(work := Releasing(false))
      else Report(s, w, NotRecorded).(work := Releasing(true), stopping := true)
    case GoodbyeRawNext(_, _) => s.(work := Halted)
    case GoodbyeNext => s.(work := Halted)
    case ControlNext => s.(work := Select, stopping := true)
  }

  predicate CanObserve(s: State, step: ObserveStep) {
    match step
    case Ask => s.work.Observing?
    case Granted =>
      && s.work.ObserveWait? && s.work.request < |s.budget.requests| && s.budget.requests[s.work.request].ready
    case StopWaiting => s.work.ObserveWait? && s.work.request < |s.budget.requests| && s.stopping
    case Push => s.work.ObserveSend? && |s.rec.channel| < s.cfg.maxItems
    case StopSending => s.work.ObserveSend? && s.stopping
    case Resume => s.work.ObserveFailed?
  }

  function DoObserve(s: State, step: ObserveStep): (t: State)
    requires s.budget.Sound() && CanObserve(s, step)
    ensures t.budget.Sound()
  {
    match step
    case Ask =>
      if !s.cfg.sink then Recorded(s, s.work.next)
      else
        var (b, r) := Reserve(s.budget, 1, s.work.input.bytes);
        s.(budget := b,
           work := if r.Ok? then ObserveWait(s.work.input, r.value, s.work.next) else ObserveFailed(s.work.next))
    case Granted =>
      if s.budget.requests[s.work.request].granted then
        var q := s.rec.sequence + 1;
        s.(rec := s.rec.(sequence := q), work := ObserveSend(Record(q, s.work.input), s.work.next))
      else s.(work := ObserveFailed(s.work.next))
    case StopWaiting => s.(budget := Cancel(s.budget, s.work.request), work := ObserveFailed(s.work.next))
    case Push => Recorded(s.(rec := s.rec.(channel := s.rec.channel + [s.work.record])), s.work.next)
    case StopSending =>
      s.(budget := Release(s.budget, 1, s.work.record.input.bytes), work := ObserveFailed(s.work.next))
    case Resume => NotSubmitted(s, s.work.next)
  }

  // ---- the coordinator handling an arrival ---------------------------------------------------------------

  predicate CanArrival(s: State, step: ArrivalStep) {
    match step
    case Decode(_) => s.work.Decoding?
    case ReserveQueue => s.work.Queueing?
    case QueueClosed => s.work.QueueRefused?
    case ChargeArrival => s.work.Charging?
    case HandOver => s.work.HandingOver?
    case SendPending => s.work.SendingPending? && s.inb.pending.Some? && |s.inb.queue| < s.cfg.maxItems
    case SendStopped => s.work.SendingPending? && |s.inb.queue| >= s.cfg.maxItems && s.stopping
    case CheckHandOff => s.work.HandOff? && s.inb.pending.Some? && s.inb.pending.value.request < |s.budget.requests|
    case CancelHandOff => s.work.HandOffCancel? && s.inb.pending.Some? && s.inb.pending.value.request < |s.budget.requests|
    case SendHandOff => s.work.HandOffSend? && s.inb.pending.Some?
  }

  function DoArrival(s: State, step: ArrivalStep): (t: State)
    requires s.budget.Sound() && CanArrival(s, step)
    ensures t.budget.Sound()
  {
    match step
    case Decode(result) =>
      var released := s.(inb := s.inb.(slot := true));
      (match result
       case DecodeFails => released.(work := Halted, stopping := true)
       case TransitionFails => released.(work := Halted, stopping := true)
       case Decoded(size, commits, bytes) =>
         var f := s.work.frame;
         var a := Arrival(f, size, commits);
         released.(applied := if commits then s.applied + {f} else s.applied,
                   inb := s.inb.(slot := true, decoded := s.inb.decoded + [a]),
                   work := Observing(Input(f, true, PacketBody, bytes), QueueNext(a))))
    case ReserveQueue =>
      var a := s.work.arrival;
      var (b, r) := Reserve(s.budget, 1, a.size);
      if r.Ok? then s.(budget := b, inb := s.inb.(pending := Some(Pending(a, r.value))), work := Select)
      else s.(budget := b, work := QueueRefused(a))
    case QueueClosed =>
      if s.stopping then s.(work := Charging(s.work.arrival, false)) else s.(work := Halted, stopping := true)
    case ChargeArrival =>
      ChargeKeepsSound(s.budget, 1, s.work.arrival.size);
      s.(budget := Charge(s.budget, 1, s.work.arrival.size), work := HandingOver(s.work.arrival, s.work.last))
    case HandOver =>
      var then' := if s.work.last then Halted else Select;
      if |s.inb.queue| < s.cfg.maxItems
      then s.(inb := s.inb.(queue := s.inb.queue + [s.work.arrival]), work := then')
      else s.(budget := Release(s.budget, 1, s.work.arrival.size), work := then')
    case SendPending =>
      s.(inb := s.inb.(queue := s.inb.queue + [s.inb.pending.value.arrival], pending := None), work := Select)
    case SendStopped => s.(work := HandOff)
    case CheckHandOff =>
      var p := s.inb.pending.value;
      var r := s.budget.requests[p.request];
      if !r.ready then s.(work := HandOffCancel)
      else if r.granted then s.(work := HandOffSend)
      else s.(inb := s.inb.(pending := None), work := Charging(p.arrival, true))
    case CancelHandOff =>
      var p := s.inb.pending.value;
      s.(budget := Cancel(s.budget, p.request), inb := s.inb.(pending := None), work := Charging(p.arrival, true))
    case SendHandOff =>
      if |s.inb.queue| < s.cfg.maxItems
      then s.(inb := s.inb.(queue := s.inb.queue + [s.inb.pending.value.arrival], pending := None), work := Halted)
      else s.(work := Halted)
  }

  // ---- the coordinator handling a write -------------------------------------------------------------------

  predicate CanWrite(s: State, step: WriteStep) {
    match step
    case Encode(_) => s.work.Encoding?
    case Begin(_) => s.work.Beginning?
    case Hand => s.work.Handing? && s.out.pump == WriterIdle
    case HandStopped => s.work.Handing? && s.stopping
    case ReadResult(_, _) => s.work.Awaiting? && s.out.result.Some?
    case ReleaseCall => s.work.Releasing?
    case BuildGoodbye(_, _) => s.work.Disconnecting?
    case HandGoodbye => s.work.GoodbyeHanding? && s.out.pump == WriterIdle
    case GoodbyeResult(_, _) => s.work.GoodbyeAwaiting? && s.out.result.Some?
    case GoodbyeGivenUp(contextEnded) =>
      || (s.work.GoodbyeHanding? && (contextEnded || s.stopping))
      || (s.work.GoodbyeAwaiting? && (contextEnded || (s.stopping && s.out.result.None?)))
  }

  function DoWrite(s: State, step: WriteStep): (t: State)
    requires s.budget.Sound() && CanWrite(s, step)
    ensures t.budget.Sound()
  {
    match step
    case Encode(encoded) =>
      var f := s.frames + 1;
      var w := s.work.call;
      (match encoded
       case EncodeFails(bytes) =>
         s.(frames := f, work := Observing(Input(f, false, Rejected, bytes), RefuseNext(w)))
       case Encoded(commits) => s.(frames := f, work := Beginning(w, f, commits)))
    case Begin(bytes) =>
      var w := s.work.call;
      var c := GetCall(s, w);
      if c.state == Queued
      then SetCall(s, w, c.(state := Started)).(work := Handing(w, s.work.frame, s.work.commits))
      else s.(work := Observing(Input(s.work.frame, false, Rejected, bytes), ForgetNext(w)))
    case Hand =>
      var turn := if s.out.accepted == [] then 0 else |s.out.accepted| - 1;
      var j := CallJob(s.work.call, turn, s.work.frame, s.work.commits);
      s.(out := s.out.(pump := Writing(j), handed := s.out.handed + [j]),
         work := Awaiting(s.work.call, s.work.frame, s.work.commits))
    case HandStopped => Report(s, s.work.call, StreamEnded).(work := Releasing(true))
    case ReadResult(raw, body) =>
      var w := s.work.call;
      var f := s.work.frame;
      var read := s.(out := s.out.(result := None));
      if s.out.result.value
      then read.(applied := if s.work.commits then s.applied + {f} else s.applied,
                 work := Observing(Input(f, false, RawFrame, raw), SentRawNext(w, f, body)))
      else Report(read, w, TransportFailed).(work := Releasing(true), stopping := true)
    case ReleaseCall =>
      s.(budget := Release(s.budget, 1, 0), work := if s.work.last then Halted else Select)
    case BuildGoodbye(supported, built) =>
      if !supported then s.(work := Halted)
      else s.(frames := s.frames + 1, work := if built then GoodbyeHanding(s.frames + 1) else Halted)
    case HandGoodbye =>
      var j := GoodbyeJob(s.work.frame);
      s.(out := s.out.(pump := Writing(j), handed := s.out.handed + [j]), work := GoodbyeAwaiting(s.work.frame))
    case GoodbyeResult(raw, body) =>
      var f := s.work.frame;
      if s.out.result.value
      then s.(out := s.out.(result := None), work := Observing(Input(f, false, RawFrame, raw), GoodbyeRawNext(f, body)))
      else s.(out := s.out.(result := None), work := Halted)
    case GoodbyeGivenUp(_) => s.(work := Halted)
  }

  // ---- the dispatcher ----------------------------------------------------------------------------------------

  predicate CanDispatch(s: State, step: DispatchStep) {
    match step
    case TakeRecord => (s.rec.dispatcher == Idle || s.rec.dispatcher == Draining) && s.rec.channel != []
    case Deliver(_) => s.rec.dispatcher.Delivering?
    case StartDraining => s.rec.dispatcher == Idle && s.rec.finishing
    case Drained => s.rec.dispatcher == Draining && s.rec.channel == []
    case DispatcherStops => s.rec.dispatcher == Idle && s.stopping
  }

  function DoDispatch(s: State, step: DispatchStep): (t: State)
    requires s.budget.Sound() && CanDispatch(s, step)
    ensures t.budget.Sound()
  {
    match step
    case TakeRecord =>
      s.(rec := s.rec.(channel := s.rec.channel[1..],
                       dispatcher := Delivering(s.rec.channel[0], s.rec.dispatcher == Draining)))
    case Deliver(accepted) =>
      var d := s.rec.dispatcher;
      var given := s.(budget := Release(s.budget, 1, d.record.input.bytes));
      if accepted
      then given.(rec := s.rec.(delivered := s.rec.delivered + [d.record], dispatcher := if d.last then Draining else Idle))
      else given.(rec := s.rec.(delivered := s.rec.delivered + [d.record], dispatcher := DispatcherHalted), stopping := true)
    case StartDraining => s.(rec := s.rec.(dispatcher := Draining))
    case Drained => s.(rec := s.rec.(dispatcher := DispatcherHalted))
    case DispatcherStops => s.(rec := s.rec.(dispatcher := DispatcherHalted))
  }

  // ---- ending --------------------------------------------------------------------------------------------------

  predicate CanEnd(s: State, step: EndStep) {
    match step
    case Stop => true
    case CloseBudget => s.stopping
    case FinishObserving => s.work == Halted
    case StopAfterDrain => s.rec.finishing && s.rec.dispatcher == DispatcherHalted
    case Finish =>
      && s.stopping && s.budget.closed.Some?
      && s.rec.finishing && s.rec.dispatcher == DispatcherHalted
      && s.out.pump == WriterHalted && s.inb.reader == ReaderHalted
  }

  function DoEnd(s: State, step: EndStep): (t: State)
    requires s.budget.Sound() && CanEnd(s, step)
    ensures t.budget.Sound()
  {
    match step
    case Stop => s.(stopping := true)
    case CloseBudget => s.(budget := Close(s.budget, None))
    case FinishObserving => s.(rec := s.rec.(finishing := true))
    case StopAfterDrain => s.(stopping := true)
    case Finish => s.(done := true)
  }

  // ---- runs ------------------------------------------------------------------------------------------------------

  predicate Can(s: State, step: Step) {
    match step
    case OfCall(c) => CanCall(s, c)
    case OfRead(r) => CanRead(s, r)
    case OfPump(p) => CanPump(s, p)
    case OfSelect(c) => CanSelect(s, c)
    case OfObserve(o) => CanObserve(s, o)
    case OfArrival(a) => CanArrival(s, a)
    case OfWrite(w) => CanWrite(s, w)
    case OfDispatch(d) => CanDispatch(s, d)
    case OfEnd(e) => CanEnd(s, e)
  }

  function Do(s: State, step: Step): (t: State)
    requires s.budget.Sound() && Can(s, step)
    ensures t.budget.Sound()
  {
    match step
    case OfCall(c) => DoCall(s, c)
    case OfRead(r) => DoRead(s, r)
    case OfPump(p) => DoPump(s, p)
    case OfSelect(c) => DoSelect(s, c)
    case OfObserve(o) => DoObserve(s, o)
    case OfArrival(a) => DoArrival(s, a)
    case OfWrite(w) => DoWrite(s, w)
    case OfDispatch(d) => DoDispatch(s, d)
    case OfEnd(e) => DoEnd(s, e)
  }

  predicate CanAll(s: State, steps: seq<Step>)
    requires s.budget.Sound()
    decreases |steps|
  {
    steps == [] || (Can(s, steps[0]) && CanAll(Do(s, steps[0]), steps[1..]))
  }

  function DoAll(s: State, steps: seq<Step>): (t: State)
    requires s.budget.Sound() && CanAll(s, steps)
    ensures t.budget.Sound()
    decreases |steps|
  {
    if steps == [] then s else DoAll(Do(s, steps[0]), steps[1..])
  }
}
