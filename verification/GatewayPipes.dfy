/**
 The Gateway's Pipes and remote OPEN attempts as a value: one table of Pipes, one
 of attempts, two reverse maps and three counters, and what each event does.
 */
module GatewayPipes {
  import opened Common
  import opened PeerFrames
  import opened SdkCodec

  /** A stream of one transport to one peer Gateway. */
  datatype PeerStreamKey = PeerStreamKey(gateway: Uuid, transport: Uuid, stream: U64)

  datatype PipeEndpoint = Sdk(session: Uuid) | Peer(key: PeerStreamKey)

  datatype PipePhase = Offered | Live

  datatype PipeEntry = PipeEntry(dialer: PipeEndpoint, acceptor: PipeEndpoint, openIdentity: Option<OpenIdentity>,
                                 phase: PipePhase)
  {
    function PeerKey(): Option<PeerStreamKey> {
      if dialer.Peer? then Some(dialer.key)
      else if acceptor.Peer? then Some(acceptor.key)
      else None
    }
  }

  type Pipes = map<PipeId, PipeEntry>

  /** How far an outgoing OPEN has got; in the last phase a peer stream is reserved for it. */
  datatype AttemptPhase = Resolving | StartingPeer | AwaitingPeer(key: PeerStreamKey)

  datatype Attempt = Attempt(pipeId: PipeId, phase: AttemptPhase)

  type Attempts = map<OpenIdentity, Attempt>

  datatype Limits = Limits(maxLive: nat, maxPending: nat, maxAttempts: nat)

  /**
   `sessions` gives each live session's highest connection id. `authorizing` are the DIALs admitted and not yet
   carried out, and `known` the session ids ever drawn; both stand for what the tasks around the state hold.
   */
  datatype State = State(
    gatewayId: Option<Uuid>,
    limits: Limits,
    draining: bool,
    sessions: map<Uuid, Option<U64>>,
    pipes: Pipes,
    peers: map<PeerStreamKey, PipeId>,
    opens: map<OpenIdentity, PeerStreamKey>,
    attempts: Attempts,
    pending: int,
    live: int,
    originated: int,
    authorizing: set<PipeId>,
    known: set<Uuid>)

  function PipeOf(id: OpenIdentity): PipeId { PipeId(id.originSession, id.connectionId) }

  function NewState(gatewayId: Option<Uuid>, limits: Limits): State {
    State(gatewayId, limits, false, map[], map[], map[], map[], map[], 0, 0, 0, {}, {})
  }

  // -------------------------------------------------------------- index helpers

  function Less<K, V>(m: map<K, V>, gone: set<K>): map<K, V> { map k | k in m && k !in gone :: m[k] }

  function Remove<V>(m: map<PipeId, V>, x: PipeId): map<PipeId, V> { map p | p in m && p != x :: m[p] }

  function IndexPeer(peers: map<PeerStreamKey, PipeId>, p: PipeId, e: PipeEntry): map<PeerStreamKey, PipeId> {
    if e.PeerKey().Some? then peers[e.PeerKey().value := p] else peers
  }

  function IndexOpen(opens: map<OpenIdentity, PeerStreamKey>, e: PipeEntry): map<OpenIdentity, PeerStreamKey> {
    if e.PeerKey().Some? && e.openIdentity.Some? then opens[e.openIdentity.value := e.PeerKey().value] else opens
  }

  function UnindexPeer(peers: map<PeerStreamKey, PipeId>, e: PipeEntry): map<PeerStreamKey, PipeId> {
    if e.PeerKey().Some? then map k | k in peers && k != e.PeerKey().value :: peers[k] else peers
  }

  function WithoutOpen<V>(m: map<OpenIdentity, V>, x: OpenIdentity): map<OpenIdentity, V> {
    map id | id in m && id != x :: m[id]
  }

  function UnindexOpen(opens: map<OpenIdentity, PeerStreamKey>, e: PipeEntry): map<OpenIdentity, PeerStreamKey> {
    if e.openIdentity.Some? then WithoutOpen(opens, e.openIdentity.value) else opens
  }

  function One(b: bool): int { if b then 1 else 0 }

  /** Adds a Pipe as the program does, whatever it may displace. */
  function Inserted(s: State, p: PipeId, e: PipeEntry): State {
    s.(pipes := s.pipes[p := e], peers := IndexPeer(s.peers, p, e), opens := IndexOpen(s.opens, e),
       pending := s.pending + One(e.phase == Offered), live := s.live + One(e.phase == Live),
       originated := s.originated + One(e.phase == Live && e.dialer.Sdk?))
  }

  function Removed(s: State, p: PipeId): State {
    if p !in s.pipes then s
    else
      var e := s.pipes[p];
      s.(pipes := Remove(s.pipes, p), peers := UnindexPeer(s.peers, e), opens := UnindexOpen(s.opens, e),
         pending := s.pending - One(e.phase == Offered), live := s.live - One(e.phase == Live),
         originated := s.originated - One(e.phase == Live && e.dialer.Sdk?))
  }

  function Promoted(s: State, p: PipeId): State {
    if p !in s.pipes || s.pipes[p].phase != Offered then s
    else
      s.(pipes := s.pipes[p := s.pipes[p].(phase := Live)], pending := s.pending - 1, live := s.live + 1,
         originated := s.originated + One(s.pipes[p].dialer.Sdk?))
  }

  /** An acceptor's answer: a second one, or one at the limit, costs the Pipe; one from anybody else does nothing. */
  function Accepted(s: State, session: Uuid, p: PipeId): State {
    if p !in s.pipes || s.pipes[p].acceptor != Sdk(session) then s
    else if s.pipes[p].phase != Offered || s.live >= s.limits.maxLive then Removed(s, p)
    else Promoted(s, p)
  }

  /** An attempt ends, and with it the reservation of its stream. */
  function AttemptEnded(s: State, id: OpenIdentity): State {
    if id !in s.attempts then s
    else s.(attempts := WithoutOpen(s.attempts, id), opens := WithoutOpen(s.opens, id))
  }

  // --------------------------------------------------------------------- events

  predicate PendingFull(s: State) { s.pending + |s.attempts| >= s.limits.maxPending }

  function LocalOffer(p: PipeId, listener: Uuid): PipeEntry {
    PipeEntry(Sdk(p.originSession), Sdk(listener), None, Offered)
  }

  function PeerOffer(key: PeerStreamKey, id: OpenIdentity, listener: Uuid): PipeEntry {
    PipeEntry(Peer(key), Sdk(listener), Some(id), Offered)
  }

  function PeerPipe(key: PeerStreamKey, id: OpenIdentity): PipeEntry {
    PipeEntry(Sdk(id.originSession), Peer(key), Some(id), Live)
  }

  /** What the route lookup of an attempt found: nothing usable, a local binding (current or stale), a peer Gateway. */
  datatype Route = Nowhere | Here(listener: Option<Uuid>) | There

  datatype Step =
    | AddSession(session: Uuid)
    | RemoveSession(session: Uuid)
    | Prepare(pipe: PipeId, admitted: bool)          // a DIAL arrives
    | Forgo(pipe: PipeId)                            // its authorization fails
    | Dial(pipe: PipeId, local: Option<Uuid>)        // ... or succeeds; `local` is the binding selected here
    | RouteResolved(id: OpenIdentity, route: Route)
    | Committed(id: OpenIdentity, key: PeerStreamKey)
    | ReceiveOpen(key: PeerStreamKey, id: OpenIdentity, listener: Uuid, current: bool)
    | Answered(key: PeerStreamKey, id: OpenIdentity)
    | EndAttempt(id: OpenIdentity)                   // failed, cancelled or lost
    | Accept(session: Uuid, pipe: PipeId)            // an acceptor takes up an offer
    | RemovePipe(pipe: PipeId)
    | Drain

  /** The DIAL passes every limit and is to be placed. */
  predicate DialPlaced(s: State, p: PipeId) {
    p.originSession in s.sessions && !s.draining && s.live < s.limits.maxLive && !PendingFull(s)
  }

  predicate DialRemote(s: State, p: PipeId, local: Option<Uuid>) {
    DialPlaced(s, p) && local.None? && s.gatewayId.Some? && |s.attempts| < s.limits.maxAttempts
  }

  predicate OpenAccepted(s: State, key: PeerStreamKey, id: OpenIdentity, listener: Uuid, current: bool) {
    && !s.draining && id.entryGateway == key.gateway
    && key !in s.peers && id !in s.opens && id !in s.attempts
    && s.live < s.limits.maxLive && !PendingFull(s)
    && listener in s.sessions && current
    && PipeOf(id) !in s.pipes
  }

  /** OPENED on `key` is an answer to the attempt. */
  predicate Answers(s: State, key: PeerStreamKey, id: OpenIdentity) {
    id in s.attempts && (s.attempts[id].phase == StartingPeer || s.attempts[id].phase == AwaitingPeer(key))
  }

  predicate CommitAccepted(s: State, id: OpenIdentity, key: PeerStreamKey) {
    && id in s.attempts && s.attempts[id].phase == StartingPeer
    && key !in s.peers && id !in s.opens && forall other :: other in s.opens ==> s.opens[other] != key
  }

  datatype Addition = NoPipe | Adds(base: State, pipe: PipeId, entry: PipeEntry)

  /** The Pipe an event adds, and the state it adds it to. */
  function AddedBy(s: State, x: Step): Addition {
    match x
    case Dial(p, local) =>
      if DialPlaced(s, p) && local.Some? && local.value in s.sessions
      then Adds(s.(authorizing := s.authorizing - {p}), p, LocalOffer(p, local.value)) else NoPipe
    case RouteResolved(id, route) =>
      if id in s.attempts && s.attempts[id].phase == Resolving
         && route.Here? && route.listener.Some? && route.listener.value in s.sessions
      then Adds(AttemptEnded(s, id), s.attempts[id].pipeId, LocalOffer(s.attempts[id].pipeId, route.listener.value))
      else NoPipe
    case ReceiveOpen(key, id, listener, current) =>
      if OpenAccepted(s, key, id, listener, current)
      then Adds(s, PipeOf(id), PeerOffer(key, id, listener)) else NoPipe
    case Answered(key, id) =>
      if Answers(s, key, id) && s.attempts[id].pipeId.originSession in s.sessions && s.live < s.limits.maxLive
      then Adds(AttemptEnded(s, id), s.attempts[id].pipeId, PeerPipe(key, id)) else NoPipe
    case _ => NoPipe
  }

  /** What an event does when it adds no Pipe. */
  ghost function Otherwise(s: State, x: Step): State {
    match x
    case AddSession(session) =>
      s.(sessions := s.sessions[session := None], known := s.known + {session})
    case RemoveSession(session) => SessionRemoved(s, session)
    case Prepare(p, admitted) =>
      if p.originSession !in s.sessions then s
      else
        var highest := s.sessions[p.originSession];
        if highest.Some? && p.connectionId <= highest.value then s
        else s.(sessions := s.sessions[p.originSession := Some(p.connectionId)],
                authorizing := if admitted && !s.draining then s.authorizing + {p} else s.authorizing)
    case Forgo(p) => s.(authorizing := s.authorizing - {p})
    case Dial(p, local) =>
      var t := s.(authorizing := s.authorizing - {p});
      if DialRemote(s, p, local)
      then t.(attempts := s.attempts[OpenIdentity(s.gatewayId.value, p.originSession, p.connectionId) :=
                                     Attempt(p, Resolving)])
      else t
    case RouteResolved(id, route) =>
      if id !in s.attempts || s.attempts[id].phase != Resolving then s
      else if route.There? then s.(attempts := s.attempts[id := s.attempts[id].(phase := StartingPeer)])
      else AttemptEnded(s, id)
    case Committed(id, key) =>
      if CommitAccepted(s, id, key)
      then s.(opens := s.opens[id := key], attempts := s.attempts[id := s.attempts[id].(phase := AwaitingPeer(key))])
      else s
    case ReceiveOpen(_, _, _, _) => s
    case Answered(key, id) => if Answers(s, key, id) then AttemptEnded(s, id) else s
    case EndAttempt(id) => AttemptEnded(s, id)
    case Accept(session, p) => Accepted(s, session, p)
    case RemovePipe(p) => Removed(s, p)
    case Drain => s.(draining := true)
  }

  ghost function Next(s: State, x: Step): State {
    match AddedBy(s, x)
    case Adds(base, p, e) => Inserted(base, p, e)
    case NoPipe => Otherwise(s, x)
  }

  // ------------------------------------------------------------ ending a session

  predicate Owns(session: Uuid, e: PipeEntry) { e.dialer == Sdk(session) || e.acceptor == Sdk(session) }

  function OwnedPipes(pipes: Pipes, session: Uuid): set<PipeId> { set p | p in pipes && Owns(session, pipes[p]) }

  function OwnAttempts(attempts: Attempts, session: Uuid): set<OpenIdentity> {
    set id | id in attempts && attempts[id].pipeId.originSession == session
  }

  /** Several attempts end. */
  function AttemptsEnded(s: State, ids: set<OpenIdentity>): State {
    s.(attempts := Less(s.attempts, ids), opens := Less(s.opens, ids))
  }

  function KeysOf(pipes: Pipes, gone: set<PipeId>): set<PeerStreamKey> {
    set p | p in gone && p in pipes && pipes[p].PeerKey().Some? :: pipes[p].PeerKey().value
  }

  function IdentitiesOf(pipes: Pipes, gone: set<PipeId>): set<OpenIdentity> {
    set p | p in gone && p in pipes && pipes[p].openIdentity.Some? :: pipes[p].openIdentity.value
  }

  /** Several Pipes are removed. */
  ghost function PipesRemoved(s: State, gone: set<PipeId>): State {
    s.(pipes := Less(s.pipes, gone),
       peers := Less(s.peers, KeysOf(s.pipes, gone)),
       opens := Less(s.opens, IdentitiesOf(s.pipes, gone)),
       pending := s.pending - Among(s.pipes, gone, PendingOffer),
       live := s.live - Among(s.pipes, gone, LivePipe),
       originated := s.originated - Among(s.pipes, gone, OriginatedPipe))
  }

  /** A session goes, with its attempts and every Pipe it is an end of. */
  ghost function SessionRemoved(s: State, session: Uuid): State {
    if session !in s.sessions then s
    else
      var t := AttemptsEnded(s.(sessions := Less(s.sessions, {session})), OwnAttempts(s.attempts, session));
      PipesRemoved(t, OwnedPipes(s.pipes, session))
  }

  // ---------------------------------------------------------------- counting

  datatype Class = PendingOffer | LivePipe | OriginatedPipe

  predicate Is(e: PipeEntry, c: Class) {
    match c
    case PendingOffer => e.phase == Offered
    case LivePipe => e.phase == Live
    case OriginatedPipe => e.phase == Live && e.dialer.Sdk?
  }

  ghost function Matching(pipes: Pipes, c: Class): set<PipeId> { set p | p in pipes && Is(pipes[p], c) }

  /** How many Pipes are of a class. */
  ghost function Count(pipes: Pipes, c: Class): nat { |Matching(pipes, c)| }

  /** ... of those in `gone`. */
  ghost function Among(pipes: Pipes, gone: set<PipeId>, c: Class): nat { |GoneOf(pipes, gone, c)| }

  ghost function GoneOf(pipes: Pipes, gone: set<PipeId>, c: Class): set<PipeId> {
    set p | p in gone && p in pipes && Is(pipes[p], c)
  }

  lemma MatchingAdd(pipes: Pipes, p: PipeId, e: PipeEntry, c: Class)
    requires p !in pipes
    ensures Matching(pipes[p := e], c) == if Is(e, c) then Matching(pipes, c) + {p} else Matching(pipes, c)
  {
  }

  lemma CountAdd(pipes: Pipes, p: PipeId, e: PipeEntry, c: Class)
    requires p !in pipes
    ensures Count(pipes[p := e], c) == Count(pipes, c) + One(Is(e, c))
  {
    MatchingAdd(pipes, p, e, c);
    assert p !in Matching(pipes, c);
  }

  lemma CountRemove(pipes: Pipes, p: PipeId, c: Class)
    requires p in pipes
    ensures Count(pipes, c) == Count(Remove(pipes, p), c) + One(Is(pipes[p], c))
  {
    CountAdd(Remove(pipes, p), p, pipes[p], c);
    assert Remove(pipes, p)[p := pipes[p]] == pipes;
  }

  lemma CountReplace(pipes: Pipes, p: PipeId, e: PipeEntry, c: Class)
    requires p in pipes
    ensures Count(pipes[p := e], c) + One(Is(pipes[p], c)) == Count(pipes, c) + One(Is(e, c))
  {
    CountRemove(pipes, p, c);
    CountAdd(Remove(pipes, p), p, e, c);
    assert Remove(pipes, p)[p := e] == pipes[p := e];
  }

  lemma CountLeft(pipes: Pipes, gone: set<PipeId>, c: Class)
    ensures Count(Less(pipes, gone), c) == Count(pipes, c) - Among(pipes, gone, c)
  {
    var left := Less(pipes, gone);
    assert Matching(pipes, c) == Matching(left, c) + GoneOf(pipes, gone, c);
    assert Matching(left, c) !! GoneOf(pipes, gone, c);
  }

  lemma NoneLeft(pipes: Pipes)
    ensures Count(pipes, PendingOffer) == 0 && Count(pipes, LivePipe) == 0 <==> pipes == map[]
  {
    if pipes != map[] {
      var p :| p in pipes;
      assert p in Matching(pipes, PendingOffer) || p in Matching(pipes, LivePipe);
    } else {
      assert Matching(pipes, PendingOffer) == {} && Matching(pipes, LivePipe) == {};
    }
  }
}
