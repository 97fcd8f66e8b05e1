/**
 One peer transport as a value: what each command, each inbound frame and each
 internal action of the transport actor does to its state.

 What happens to a single stream is an `Effect` computed from that stream alone;
 `Apply` carries it out on the actor.

 The state keeps one field the program does not have, `history`: the
 chronological record of what the actor did that others can observe.
 */
module PeerActor {
  import opened Common
  import opened ErrorCodes
  import opened PeerFrames

  // ---------------------------------------------------------------- identity

  datatype Endpoint = Dialer | Acceptor {
    function Opposite(): Endpoint { if this == Dialer then Acceptor else Dialer }
    function Bit(): nat { if this == Dialer then 0 else 1 }
  }

  const MAX_COUNTER: nat := 0x7FFF_FFFF_FFFF_FFFF

  function Counter(s: StreamId): nat { s / 2 }

  /** The endpoint whose role bit the identifier carries. */
  function Initiator(s: StreamId): Endpoint { if s % 2 == 0 then Dialer else Acceptor }

  function MakeId(e: Endpoint, counter: nat): (s: StreamId)
    requires counter <= MAX_COUNTER
    ensures Counter(s) == counter && Initiator(s) == e
  {
    2 * counter + e.Bit()
  }

  /** The remote guard: right role bit, and a counter above every earlier one. */
  predicate GuardAccepts(remote: Endpoint, highest: Option<nat>, s: StreamId) {
    Initiator(s) == remote && (highest.Some? ==> highest.value < Counter(s))
  }

  // ------------------------------------------------------------ relay stream

  datatype RelayPhase = Opening | Streaming | Ended

  /** Half-close machine of one stream; each endpoint finishes once. */
  datatype Relay = Relay(phase: RelayPhase, owner: OpenIdentity,
                         dialerFinished: bool, acceptorFinished: bool)
  {
    predicate Finished(sender: Endpoint) {
      if sender == Dialer then dialerFinished else acceptorFinished
    }

    predicate AcceptsData(sender: Endpoint) { phase == Streaming && !Finished(sender) }

    function Finish(sender: Endpoint): Relay
      requires phase == Streaming
    {
      var r := if sender == Dialer then this.(dialerFinished := true)
               else this.(acceptorFinished := true);
      if r.dialerFinished && r.acceptorFinished then r.(phase := Ended) else r
    }
  }

  // ------------------------------------------------------------ actor state

  datatype Origin = Local | Remote

  datatype Progress = AfterOpenCommit | ProgressOpened

  datatype Stream = Stream(relay: Relay, queue: seq<PeerFrame>, terminalQueued: bool,
                           progress: Progress, origin: Origin, deadline: Option<Instant>)

  datatype CloseReason =
    LocalClose | RemoteClosed | ProtocolViolated | WriterFailed | HeartbeatTimeout | IdleRetired

  datatype PeerEvent =
    | IncomingOpen(openIdentity: OpenIdentity, destination: Destination,
                   relaySessionId: Uuid, bindingId: Uuid)
    | OpenedEvent(openIdentity: OpenIdentity)
    | FailedEvent(openIdentity: OpenIdentity, failure: PeerFailure)
    | DataEvent(payload: Bytes)
    | FinEvent
    | CloseEvent
    | ResetEvent(code: ErrorCode, message: Bytes)

  /** One observable happening on a stream. */
  datatype Note =
    | Inserted(owner: OpenIdentity)
    | Emitted(event: PeerEvent)
    | Accepted(payload: Bytes)          // send_data queued this payload
    | StreamEnded(owner: OpenIdentity)
    | StreamLost(owner: OpenIdentity, progress: Progress)
    | GuardRefused                      // OPEN refused by the StreamId guard
    | ProtocolReset                     // an inbound frame broke the protocol

  datatype Record = On(s: StreamId, note: Note) | AttemptEnded(identity: OpenIdentity)

  /** The fixed diagnostics this actor writes; their wording is a parameter. */
  datatype Diagnostic =
    | OpenTimedOut | TerminalAlreadyQueued | StreamQueueFull
    | StreamLimitReached | StreamIdsExhausted | WriterFullBeforeOpen
    | ClosedBeforeOpen | OpenedAnswersRemoteOpen | NotOpening
    | FailedAnswersRemoteOpen | DataNotAccepted | FinNotAccepted
    | CloseBeforeOpened | OpenCancelled | StreamIdRefused
    | EntryGatewayMismatch | IdentityActive | OpenedForRemoteStream
    | OpenedInvalidPhase | FailedInvalidPhase | DataInvalidPhase
    | FinInvalidPhase

  datatype Config = Config(streamQueueCapacity: nat, maxStreams: nat, writerCapacity: nat,
                           openResponseTimeout: nat, text: Diagnostic -> Bytes)

  // ----------------------------------------------- what happens to one stream

  datatype Reply = Done | Refused(failure: PeerFailure)

  /** A stream's next state (`None` once it has left), what was observable, and
      whether the transport failed with `WriterFailed`. */
  datatype Effect = Effect(next: Option<Stream>, notes: seq<Note>, failed: bool, reply: Reply)

  function Keep(st: Stream): Effect { Effect(Some(st), [], false, Done) }

  function Refuse(st: Stream, failure: PeerFailure, failed: bool): Effect {
    Effect(Some(st), [], failed, Refused(failure))
  }

  datatype Enqueued = Queued(st: Stream) | NotQueued(failure: PeerFailure)

  function Enqueue(c: Config, st: Stream, frame: PeerFrame, terminal: bool): Enqueued {
    if st.terminalQueued then
      if terminal then Queued(st.(deadline := None))
      else NotQueued(PeerFailure(FailedPrecondition, MaybeObserved, c.text(TerminalAlreadyQueued)))
    else if |st.queue| >= c.streamQueueCapacity then
      NotQueued(PeerFailure(ResourceExhausted, MaybeObserved, c.text(StreamQueueFull)))
    else
      Queued(st.(queue := st.queue + [frame], terminalQueued := terminal,
                 deadline := if terminal then None else st.deadline))
  }

  /** Queues a frame after which the stream sends nothing more; a full queue fails the transport. */
  function EnqueueTerminal(c: Config, st: Stream, frame: PeerFrame): Effect {
    match Enqueue(c, st, frame, true)
    case NotQueued(failure) => Refuse(st, failure, true)
    case Queued(queued) => Keep(queued)
  }

  function Leave(st: Stream, notes: seq<Note>): Effect {
    Effect(None, notes + [StreamEnded(st.relay.owner)], false, Done)
  }

  function DropOn(st: Stream): Effect {
    Effect(None, [StreamLost(st.relay.owner, st.progress)], false, Done)
  }

  predicate Due(st: Stream, now: Instant) {
    !st.terminalQueued && st.deadline.Some? && st.deadline.value <= now
  }

  /** One stream of `expire_open_deadlines_before`. */
  function ExpireOn(c: Config, s: StreamId, st: Stream): Effect {
    var queued := EnqueueTerminal(c, st, Reset(s, DeadlineExceeded, c.text(OpenTimedOut)));
    if queued.failed then queued
    else
      var failure := PeerFailure(DeadlineExceeded, MaybeObserved, c.text(OpenTimedOut));
      queued.(notes := [Emitted(FailedEvent(st.relay.owner, failure))])
  }

  // ------------------------------------------------------------- command.rs

  datatype StreamCommand =
    | CmdOpened | CmdFailed(failure: PeerFailure) | CmdData(payload: Bytes)
    | CmdFin | CmdClose | CmdReset(code: ErrorCode, message: Bytes)

  function Misuse(c: Config, d: Diagnostic): PeerFailure {
    PeerFailure(FailedPrecondition, MaybeObserved, c.text(d))
  }

  function SendOpened(c: Config, s: StreamId, st: Stream): Effect {
    if st.terminalQueued then Keep(st)
    else if st.origin != Remote then Refuse(st, Misuse(c, OpenedAnswersRemoteOpen), false)
    else if st.progress == ProgressOpened then Keep(st)
    else if st.relay.phase != Opening then Refuse(st, Misuse(c, NotOpening), false)
    else
      match Enqueue(c, st, Opened(s), false)
      case NotQueued(failure) => Refuse(st, failure, false)
      case Queued(queued) =>
        Keep(queued.(relay := st.relay.(phase := Streaming), progress := ProgressOpened))
  }

  function SendFailed(c: Config, s: StreamId, st: Stream, failure: PeerFailure): Effect {
    if st.terminalQueued then Keep(st)
    else if st.origin != Remote || st.progress == ProgressOpened then
      Refuse(st, Misuse(c, FailedAnswersRemoteOpen), false)
    else EnqueueTerminal(c, st, Failed(s, failure.code, failure.observation, failure.message))
  }

  function SendData(c: Config, local: Endpoint, s: StreamId, st: Stream, payload: Bytes): Effect {
    if !st.relay.AcceptsData(local) then Refuse(st, Misuse(c, DataNotAccepted), false)
    else
      match Enqueue(c, st, Data(s, payload), false)
      case NotQueued(failure) => Refuse(st, failure, false)
      case Queued(queued) => Keep(queued).(notes := [Accepted(payload)])
  }

  function SendFin(c: Config, local: Endpoint, s: StreamId, st: Stream): Effect {
    if st.terminalQueued then Keep(st)
    else if st.relay.phase != Streaming then Refuse(st, Misuse(c, FinNotAccepted), false)
    else if st.relay.Finished(local) then Keep(st)
    else
      var relay := st.relay.Finish(local);
      match Enqueue(c, st, Fin(s), relay.phase == Ended)
      case NotQueued(failure) => Refuse(st, failure, false)
      case Queued(queued) => Keep(queued.(relay := relay))
  }

  function SendReset(c: Config, s: StreamId, st: Stream, code: ErrorCode, message: Bytes): Effect {
    if st.terminalQueued then Keep(st)
    else EnqueueTerminal(c, st, Reset(s, code, message))
  }

  function SendClose(c: Config, s: StreamId, st: Stream): Effect {
    if st.terminalQueued then Keep(st)
    else if st.relay.phase != Streaming then
      SendReset(c, s, st, ProtocolError, c.text(CloseBeforeOpened))
    else EnqueueTerminal(c, st, Close(s))
  }

  function CommandOn(c: Config, local: Endpoint, s: StreamId, st: Stream, x: StreamCommand): Effect {
    match x
    case CmdOpened => SendOpened(c, s, st)
    case CmdFailed(failure) => SendFailed(c, s, st, failure)
    case CmdData(payload) => SendData(c, local, s, st, payload)
    case CmdFin => SendFin(c, local, s, st)
    case CmdClose => SendClose(c, s, st)
    case CmdReset(code, message) => SendReset(c, s, st, code, message)
  }

  // ------------------------------------------------------------- inbound.rs

  function TerminalReset(st: Stream, code: ErrorCode, message: Bytes): Note {
    if st.origin == Local && st.progress != ProgressOpened then
      Emitted(FailedEvent(st.relay.owner, PeerFailure(code, MaybeObserved, message)))
    else Emitted(ResetEvent(code, message))
  }

  function BreakProtocol(c: Config, s: StreamId, st: Stream, d: Diagnostic): Effect {
    var reset := SendReset(c, s, st, ProtocolError, c.text(d));
    reset.(notes := if reset.reply.Done? then [ProtocolReset, TerminalReset(st, ProtocolError, c.text(d))]
                    else [ProtocolReset])
  }

  function ReceiveOpened(c: Config, s: StreamId, st: Stream): Effect {
    if st.origin != Local then BreakProtocol(c, s, st, OpenedForRemoteStream)
    else if st.progress == ProgressOpened then Keep(st)
    else if st.relay.phase != Opening then BreakProtocol(c, s, st, OpenedInvalidPhase)
    else
      Keep(st.(relay := st.relay.(phase := Streaming), progress := ProgressOpened, deadline := None))
        .(notes := [Emitted(OpenedEvent(st.relay.owner))])
  }

  function ReceiveFailed(c: Config, s: StreamId, st: Stream, failure: PeerFailure): Effect {
    if st.origin != Local || st.progress == ProgressOpened then BreakProtocol(c, s, st, FailedInvalidPhase)
    else Leave(st, [Emitted(FailedEvent(st.relay.owner, failure))])
  }

  function ReceiveData(c: Config, local: Endpoint, s: StreamId, st: Stream, payload: Bytes): Effect {
    if !st.relay.AcceptsData(local.Opposite()) then BreakProtocol(c, s, st, DataInvalidPhase)
    else Keep(st).(notes := [Emitted(DataEvent(payload))])
  }

  function ReceiveFin(c: Config, local: Endpoint, s: StreamId, st: Stream): Effect {
    if st.relay.phase != Streaming then BreakProtocol(c, s, st, FinInvalidPhase)
    else if st.relay.Finished(local.Opposite()) then Keep(st)
    else
      var relay := st.relay.Finish(local.Opposite());
      if relay.phase != Ended then Keep(st.(relay := relay)).(notes := [Emitted(FinEvent)])
      else if st.queue == [] then Leave(st, [Emitted(FinEvent)])
      else
        Keep(st.(relay := relay, terminalQueued := true, deadline := None)).(notes := [Emitted(FinEvent)])
  }

  function ReceiveClose(c: Config, s: StreamId, st: Stream): Effect {
    if st.relay.phase != Streaming then BreakProtocol(c, s, st, CloseBeforeOpened)
    else Leave(st, [Emitted(CloseEvent)])
  }

  function ReceiveReset(st: Stream, code: ErrorCode, message: Bytes): Effect {
    Leave(st, [TerminalReset(st, code, message)])
  }

  /** What a frame addressed to a current stream does to it. */
  function InboundOn(c: Config, local: Endpoint, s: StreamId, st: Stream, f: PeerFrame): Effect {
    if st.terminalQueued then Keep(st)
    else
      match f
      case Opened(_) => ReceiveOpened(c, s, st)
      case Failed(_, code, observation, message) => ReceiveFailed(c, s, st, PeerFailure(code, observation, message))
      case Data(_, payload) => ReceiveData(c, local, s, st, payload)
      case Fin(_) => ReceiveFin(c, local, s, st)
      case Close(_) => ReceiveClose(c, s, st)
      case Reset(_, code, message) => ReceiveReset(st, code, message)
      case _ => Keep(st)
  }

  // ---------------------------------------------------------- the whole actor

  datatype Actor = Actor(
    config: Config,
    peerGateway: Uuid,
    local: Endpoint,
    nextCounter: nat,
    highest: Option<nat>,
    streams: map<StreamId, Stream>,
    ready: set<StreamId>,
    writer: seq<PeerFrame>,        // frames in the bounded aggregate writer channel
    writerClosed: bool,
    activeOpens: set<OpenIdentity>,
    streamCount: int,              // this actor's share of the shared counter
    failure: Option<CloseReason>,
    history: seq<Record>)
  {
    function Remote(): Endpoint { local.Opposite() }

    /** The first failure wins. */
    function Fail(reason: CloseReason): Actor {
      if failure.None? then this.(failure := Some(reason)) else this
    }
  }

  function NewActor(config: Config, peerGateway: Uuid, local: Endpoint, active: set<OpenIdentity>): Actor {
    Actor(config, peerGateway, local, 0, None, map[], {}, [], false, active, 0, None, [])
  }

  function Records(s: StreamId, notes: seq<Note>): seq<Record> {
    seq(|notes|, i requires 0 <= i < |notes| => On(s, notes[i]))
  }

  /** Carries an effect on live stream `s` out on the whole actor. */
  function Apply(a: Actor, s: StreamId, e: Effect): Actor
    requires s in a.streams
  {
    var failure := if e.failed && a.failure.None? then Some(WriterFailed) else a.failure;
    var history := a.history + Records(s, e.notes);
    match e.next
    case Some(st) =>
      a.(streams := a.streams[s := st],
         ready := if st.queue == [] then a.ready - {s} else a.ready + {s},
         failure := failure, history := history)
    case None =>
      a.(streams := a.streams - {s}, ready := a.ready - {s},
         activeOpens := a.activeOpens - {a.streams[s].relay.owner},
         streamCount := a.streamCount - 1,
         failure := failure, history := history)
  }

  datatype SendResult = Sent | Full | Closed

  /** What `try_send` on the aggregate writer answers. */
  function WriterVerdict(a: Actor): SendResult {
    if a.writerClosed then Closed
    else if |a.writer| >= a.config.writerCapacity then Full
    else Sent
  }

  // -------------------------------------------------- opening and accepting

  datatype OpenRequest = OpenRequest(openIdentity: OpenIdentity, destination: Destination,
                                     relaySessionId: Uuid, bindingId: Uuid)

  datatype OpenReply = OpenDone(s: StreamId) | OpenRefused(failure: PeerFailure)

  function OpeningStream(owner: OpenIdentity, origin: Origin, deadline: Option<Instant>): Stream {
    Stream(Relay(Opening, owner, false, false), [], false, AfterOpenCommit, origin, deadline)
  }

  /** Adds a stream; the caller has reserved its owner. */
  function Insert(a: Actor, s: StreamId, st: Stream, notes: seq<Note>): Actor {
    a.(streams := a.streams[s := st], streamCount := a.streamCount + 1,
       history := a.history + Records(s, notes))
  }

  function OpenReplyFor(a: Actor): OpenReply {
    if |a.streams| >= a.config.maxStreams then
      OpenRefused(PeerFailure(ResourceExhausted, NotObserved, a.config.text(StreamLimitReached)))
    else if a.nextCounter > MAX_COUNTER then
      OpenRefused(PeerFailure(ResourceExhausted, NotObserved, a.config.text(StreamIdsExhausted)))
    else
      match WriterVerdict(a)
      case Full => OpenRefused(PeerFailure(ResourceExhausted, NotObserved, a.config.text(WriterFullBeforeOpen)))
      case Closed => OpenRefused(PeerFailure(Unavailable, NotObserved, a.config.text(ClosedBeforeOpen)))
      case Sent => OpenDone(MakeId(a.local, a.nextCounter))
  }

  /** An OPEN command, with its `AttemptEnded` notice when it fails. */
  function OpenStream(a: Actor, q: OpenRequest, now: Instant): Actor {
    var counter := if |a.streams| < a.config.maxStreams && a.nextCounter <= MAX_COUNTER
                   then a.nextCounter + 1 else a.nextCounter;
    match OpenReplyFor(a)
    case OpenRefused(_) =>
      a.(nextCounter := counter, activeOpens := a.activeOpens - {q.openIdentity},
         history := a.history + [AttemptEnded(q.openIdentity)])
    case OpenDone(s) =>
      var frame := Open(s, q.openIdentity, q.destination, q.relaySessionId, q.bindingId);
      Insert(a.(nextCounter := counter, writer := a.writer + [frame]), s,
             OpeningStream(q.openIdentity, Local, Some(now + a.config.openResponseTimeout)),
             [Inserted(q.openIdentity)])
  }

  /** Commits a frame straight to the writer, failing the transport otherwise. */
  function Commit(a: Actor, frame: PeerFrame): Actor {
    if WriterVerdict(a) == Sent then a.(writer := a.writer + [frame]) else a.Fail(WriterFailed)
  }

  function RejectRemoteOpen(a: Actor, s: StreamId, code: ErrorCode, d: Diagnostic): Actor {
    Commit(a, Failed(s, code, NotObserved, a.config.text(d)))
  }

  function ReceiveOpen(a: Actor, s: StreamId, q: OpenRequest): Actor {
    if !GuardAccepts(a.Remote(), a.highest, s) then
      RejectRemoteOpen(a.(history := a.history + Records(s, [GuardRefused])), s, ProtocolError, StreamIdRefused)
    else AdmitOpen(a.(highest := Some(Counter(s))), s, q)
  }

  /** A remote OPEN whose identifier passed the guard. */
  function AdmitOpen(a: Actor, s: StreamId, q: OpenRequest): Actor {
    var id := q.openIdentity;
    if id.entryGateway != a.peerGateway then RejectRemoteOpen(a, s, PermissionDenied, EntryGatewayMismatch)
    else if |a.streams| >= a.config.maxStreams then
      RejectRemoteOpen(a, s, ResourceExhausted, StreamLimitReached)
    else if id in a.activeOpens then RejectRemoteOpen(a, s, AlreadyExists, IdentityActive)
    else
      Insert(a.(activeOpens := a.activeOpens + {id}), s, OpeningStream(id, Remote, None),
             [Inserted(id), Emitted(IncomingOpen(id, q.destination, q.relaySessionId, q.bindingId))])
  }

  /** `handle_frame`; `FrameEndsLoop` says when the read loop must stop. */
  function HandleFrame(a: Actor, f: PeerFrame): Actor {
    match f
    case Open(s, id, destination, session, binding) =>
      ReceiveOpen(a, s, OpenRequest(id, destination, session, binding))
    case Ping(nonce) => Commit(a, Pong(nonce))
    case Pong(_) | Hello(_) | Welcome(_) | HandshakeRejected(_, _) => a
    case _ =>
      var s := f.streamId;
      if s in a.streams then Apply(a, s, InboundOn(a.config, a.local, s, a.streams[s], f)) else a
  }

  predicate FrameEndsLoop(a: Actor, f: PeerFrame) {
    match f
    case Ping(_) => WriterVerdict(a) != Sent
    case Hello(_) | Welcome(_) | HandshakeRejected(_, _) => true
    case _ => false
  }

  // ---------------------------------------------------------------- draining

  predicate Pumpable(a: Actor, s: StreamId) {
    s in a.ready && s in a.streams && a.streams[s].queue != [] && WriterVerdict(a) != Full
  }

  /** One frame moved by `flush_stream_queues` from stream `s` to the writer. */
  function PumpStream(a: Actor, s: StreamId): Actor {
    if !Pumpable(a, s) then a
    else
      var st := a.streams[s];
      var popped := Keep(st.(queue := st.queue[1..])).(failed := WriterVerdict(a) == Closed);
      Apply(a, s, popped)
        .(writer := if WriterVerdict(a) == Sent then a.writer + [st.queue[0]] else a.writer)
  }

  /** The flush loop's clean-up of a stream whose terminal frame left its queue. */
  function RetireStream(a: Actor, s: StreamId): Actor {
    if s in a.streams && a.streams[s].terminalQueued && a.streams[s].queue == []
    then Apply(a, s, Leave(a.streams[s], [])) else a
  }

  function OwnedBy(a: Actor, id: OpenIdentity): set<nat> {
    set s | s in a.streams && a.streams[s].relay.owner == id
  }

  function CancelOpen(a: Actor, id: OpenIdentity): Actor {
    if OwnedBy(a, id) == {} then a
    else
      var s: StreamId := Least(OwnedBy(a, id));
      Apply(a, s, CommandOn(a.config, a.local, s, a.streams[s], CmdReset(Cancelled, a.config.text(OpenCancelled))))
  }

  // -------------------------------------------------------------- steps

  /** The indivisible actions of one actor and of its companion tasks. */
  datatype Action =
    | DoOpen(request: OpenRequest, now: Instant)
    | DoCancel(identity: OpenIdentity)
    | DoStream(s: StreamId, command: StreamCommand)
    | DoReceive(frame: PeerFrame)
    | DoExpire(s: StreamId, now: Instant)
    | DoPump(s: StreamId)
    | DoRetire(s: StreamId)
    | DoDrop(s: StreamId)
    | DoPing(nonce: U64)               // the liveness probe commits PING to the writer
    | DoFail(reason: CloseReason)      // the writer task or the manager fails the transport
    | DoReserve(identity: OpenIdentity)  // the manager or a sibling transport reserves an OPEN
    | DoRelease(identity: OpenIdentity)  // ... or releases one this actor does not hold
    | DoTransmit                       // the writer task takes the oldest frame
    | DoCloseWriter                    // the writer task ends; its queued frames are lost

  /** What the program around the actor guarantees about an action. */
  predicate Enabled(a: Actor, x: Action) {
    match x
    case DoOpen(q, _) => q.openIdentity in a.activeOpens && OwnedBy(a, q.openIdentity) == {}
    case DoRelease(id) => OwnedBy(a, id) == {}
    case DoTransmit => a.writer != []
    case _ => true
  }

  /** The effect of an action that concerns only one live stream. */
  function StreamEffect(a: Actor, s: StreamId, x: Action): Effect
    requires s in a.streams
  {
    var st := a.streams[s];
    match x
    case DoStream(_, c) => CommandOn(a.config, a.local, s, st, c)
    case DoExpire(_, now) => if Due(st, now) then ExpireOn(a.config, s, st) else Keep(st)
    case DoDrop(_) => DropOn(st)
    case _ => Keep(st)
  }

  function Next(a: Actor, x: Action): Actor
    requires Enabled(a, x)
  {
    match x
    case DoOpen(q, now) => OpenStream(a, q, now)
    case DoCancel(id) => CancelOpen(a, id)
    case DoReceive(f) => HandleFrame(a, f)
    case DoPump(s) => PumpStream(a, s)
    case DoRetire(s) => RetireStream(a, s)
    case DoPing(nonce) => Commit(a, Ping(nonce))
    case DoFail(reason) => a.Fail(reason)
    case DoReserve(id) => a.(activeOpens := a.activeOpens + {id})
    case DoRelease(id) => a.(activeOpens := a.activeOpens - {id})
    case DoTransmit => a.(writer := a.writer[1..])
    case DoCloseWriter => a.(writer := [], writerClosed := true)
    case _ => if x.s in a.streams then Apply(a, x.s, StreamEffect(a, x.s, x)) else a
  }
}
