/**
 What every event keeps of the Gateway's Pipes and attempts, exactly when the
 program's own assertions hold, and why they do in every run whose peers use each
 stream for one OPEN.
 */
module GatewayRuns {
  import opened Common
  import opened PeerFrames
  import opened SdkCodec
  import opened GatewayPipes

  // --------------------------------------------------------------- invariant

  type Sessions = map<Uuid, Option<U64>>

  /** The connection id was used by the live session that owns it. */
  predicate Used(sessions: Sessions, p: PipeId) {
    && p.originSession in sessions
    && sessions[p.originSession].Some? && p.connectionId <= sessions[p.originSession].value
  }

  /** A Pipe dialed here is under its dialer's own connection id, which no DIAL under way has. */
  predicate DialedHere(sessions: Sessions, authorizing: set<PipeId>, p: PipeId, e: PipeEntry) {
    e.dialer == Sdk(p.originSession) && Used(sessions, p) && p !in authorizing
  }

  /** A Pipe joins two SDK sessions, or one with a peer stream, under the OPEN identity it has. */
  predicate PipeOk(gatewayId: Option<Uuid>, sessions: Sessions, authorizing: set<PipeId>, p: PipeId, e: PipeEntry) {
    match (e.dialer, e.acceptor)
    case (Sdk(_), Sdk(a)) => a in sessions && e.openIdentity.None? && DialedHere(sessions, authorizing, p, e)
    case (Sdk(_), Peer(k)) =>
      && e.openIdentity.Some? && PipeOf(e.openIdentity.value) == p
      && gatewayId == Some(e.openIdentity.value.entryGateway)
      && e.phase == Live && DialedHere(sessions, authorizing, p, e)
    case (Peer(k), Sdk(a)) =>
      && e.openIdentity.Some? && PipeOf(e.openIdentity.value) == p
      && e.openIdentity.value.entryGateway == k.gateway && gatewayId != Some(k.gateway) && a in sessions
    case (Peer(_), Peer(_)) => false
  }

  ghost predicate PipesOk(gatewayId: Option<Uuid>, sessions: Sessions, authorizing: set<PipeId>, pipes: Pipes) {
    forall p {:trigger pipes[p]} :: p in pipes ==> PipeOk(gatewayId, sessions, authorizing, p, pipes[p])
  }

  /** An attempt is this Gateway's own, for a live session's connection id that no Pipe dialed here has. */
  predicate AttemptOk(gatewayId: Option<Uuid>, sessions: Sessions, authorizing: set<PipeId>, pipes: Pipes,
                      id: OpenIdentity, a: Attempt) {
    && a.pipeId == PipeOf(id) && gatewayId == Some(id.entryGateway)
    && Used(sessions, a.pipeId) && a.pipeId !in authorizing
    && (a.pipeId in pipes ==> pipes[a.pipeId].dialer.Peer?)
  }

  ghost predicate AttemptsOk(gatewayId: Option<Uuid>, sessions: Sessions, authorizing: set<PipeId>, pipes: Pipes,
                             attempts: Attempts) {
    forall id {:trigger attempts[id]} :: id in attempts ==>
      AttemptOk(gatewayId, sessions, authorizing, pipes, id, attempts[id])
  }

  /** `peers` leads from every peer stream in use to its Pipe, and from nothing else. */
  ghost predicate PeersExact(pipes: Pipes, peers: map<PeerStreamKey, PipeId>) {
    && (forall p {:trigger pipes[p]} :: p in pipes && pipes[p].PeerKey().Some? ==>
          pipes[p].PeerKey().value in peers && peers[pipes[p].PeerKey().value] == p)
    && (forall k {:trigger peers[k]} :: k in peers ==> peers[k] in pipes && pipes[peers[k]].PeerKey() == Some(k))
  }

  /** The peer stream an OPEN identity is in use with: its Pipe's, or the one reserved for its attempt. */
  ghost predicate InUse(pipes: Pipes, attempts: Attempts, id: OpenIdentity, key: PeerStreamKey) {
    || (PipeOf(id) in pipes && pipes[PipeOf(id)].openIdentity == Some(id) && pipes[PipeOf(id)].PeerKey() == Some(key))
    || (id in attempts && attempts[id].phase == AwaitingPeer(key))
  }

  /** No identity has both a Pipe and an attempt. */
  ghost predicate Disjoint(pipes: Pipes, attempts: Attempts) {
    forall id {:trigger attempts[id]} :: id in attempts ==>
      PipeOf(id) in pipes ==> pipes[PipeOf(id)].openIdentity != Some(id)
  }

  /** `opens` is exactly the union of what Pipes and committed attempts have in use, which are disjoint. */
  ghost predicate OpensExact(pipes: Pipes, attempts: Attempts, opens: map<OpenIdentity, PeerStreamKey>) {
    && Disjoint(pipes, attempts)
    && (forall id {:trigger opens[id]} :: id in opens ==> InUse(pipes, attempts, id, opens[id]))
    && (forall id, key {:trigger InUse(pipes, attempts, id, key)} :: InUse(pipes, attempts, id, key) ==> id in opens)
  }

  ghost predicate DialsOk(sessions: Sessions, authorizing: set<PipeId>, known: set<Uuid>) {
    && (forall x :: x in sessions ==> x in known)
    && (forall p :: p in authorizing ==>
          p.originSession in known && (p.originSession in sessions ==> Used(sessions, p)))
  }

  ghost predicate CountsOk(s: State) {
    && s.pending == Count(s.pipes, PendingOffer)
    && s.live == Count(s.pipes, LivePipe)
    && s.originated == Count(s.pipes, OriginatedPipe)
  }

  ghost predicate Inv(s: State) {
    && PipesOk(s.gatewayId, s.sessions, s.authorizing, s.pipes)
    && AttemptsOk(s.gatewayId, s.sessions, s.authorizing, s.pipes, s.attempts)
    && PeersExact(s.pipes, s.peers)
    && OpensExact(s.pipes, s.attempts, s.opens)
    && DialsOk(s.sessions, s.authorizing, s.known)
    && CountsOk(s)
  }

  // ------------------------------------------------------------- adding a Pipe

  /** None of the program's assertions about a new Pipe fails: nothing it brings is in use. */
  predicate Fresh(s: State, p: PipeId, e: PipeEntry) {
    && p !in s.pipes
    && (e.PeerKey().Some? ==> e.PeerKey().value !in s.peers)
    && (e.PeerKey().Some? && e.openIdentity.Some? ==> e.openIdentity.value !in s.opens)
  }

  /** The Pipe would fit, were it new. */
  ghost predicate Fits(s: State, p: PipeId, e: PipeEntry) {
    && PipeOk(s.gatewayId, s.sessions, s.authorizing, p, e)
    && (e.openIdentity.Some? ==> e.openIdentity.value !in s.attempts)
    && (e.dialer.Sdk? ==> forall id {:trigger s.attempts[id]} :: id in s.attempts ==> s.attempts[id].pipeId != p)
  }

  lemma InsertOpens(s: State, p: PipeId, e: PipeEntry)
    requires OpensExact(s.pipes, s.attempts, s.opens) && Fits(s, p, e) && Fresh(s, p, e)
    requires AttemptsOk(s.gatewayId, s.sessions, s.authorizing, s.pipes, s.attempts)
    ensures OpensExact(s.pipes[p := e], s.attempts, IndexOpen(s.opens, e))
  {
    var pipes, opens := s.pipes[p := e], IndexOpen(s.opens, e);
    forall id | id in opens ensures InUse(pipes, s.attempts, id, opens[id]) {
      if id in s.opens { assert InUse(s.pipes, s.attempts, id, s.opens[id]); }
    }
    forall id, key | InUse(pipes, s.attempts, id, key) ensures id in opens {
      if e.openIdentity != Some(id) { assert InUse(s.pipes, s.attempts, id, key); }
    }
  }

  lemma InsertCounts(s: State, p: PipeId, e: PipeEntry)
    requires CountsOk(s) && p !in s.pipes
    ensures CountsOk(Inserted(s, p, e))
  {
    CountAdd(s.pipes, p, e, PendingOffer);
    CountAdd(s.pipes, p, e, LivePipe);
    CountAdd(s.pipes, p, e, OriginatedPipe);
  }

  lemma InsertInv(s: State, p: PipeId, e: PipeEntry)
    requires Inv(s) && Fits(s, p, e) && Fresh(s, p, e)
    ensures Inv(Inserted(s, p, e))
  {
    InsertCounts(s, p, e);
    InsertOpens(s, p, e);
  }

  /** A Pipe that displaces another leaves the counters wrong. */
  lemma DisplacedPipe(s: State, p: PipeId, e: PipeEntry)
    requires CountsOk(s) && p in s.pipes
    ensures !CountsOk(Inserted(s, p, e))
  {
    CountReplace(s.pipes, p, e, PendingOffer);
    CountReplace(s.pipes, p, e, LivePipe);
  }

  /** A Pipe on a stream in use leaves another Pipe that its stream does not lead to. */
  lemma DisplacedStream(s: State, p: PipeId, e: PipeEntry)
    requires PeersExact(s.pipes, s.peers) && p !in s.pipes && e.PeerKey().Some? && e.PeerKey().value in s.peers
    ensures !PeersExact(s.pipes[p := e], IndexPeer(s.peers, p, e))
  {
    var q := s.peers[e.PeerKey().value];
    assert s.pipes[p := e][q] == s.pipes[q];
  }

  lemma UseOf(pipes: Pipes, attempts: Attempts, opens: map<OpenIdentity, PeerStreamKey>, id: OpenIdentity)
    requires OpensExact(pipes, attempts, opens)
    ensures id in opens ==> InUse(pipes, attempts, id, opens[id])
  {
  }

  /** With an identity that has no attempt, a new Pipe on a new stream finds its identity free, too. */
  lemma IdentityFree(s: State, p: PipeId, e: PipeEntry)
    requires OpensExact(s.pipes, s.attempts, s.opens) && Fits(s, p, e) && p !in s.pipes
    ensures e.openIdentity.Some? ==> e.openIdentity.value !in s.opens
  {
    if e.openIdentity.Some? { UseOf(s.pipes, s.attempts, s.opens, e.openIdentity.value); }
  }

  /** Adding a Pipe that fits keeps the invariant if and only if the program's assertions hold. */
  lemma InsertExactly(s: State, p: PipeId, e: PipeEntry)
    requires Inv(s) && Fits(s, p, e)
    ensures Inv(Inserted(s, p, e)) <==> Fresh(s, p, e)
  {
    if Fresh(s, p, e) { InsertInv(s, p, e); }
    else if p in s.pipes { DisplacedPipe(s, p, e); }
    else {
      IdentityFree(s, p, e);
      DisplacedStream(s, p, e);
    }
  }

  // ---------------------------------------------------------- removing Pipes

  lemma RemoveManyPeers(pipes: Pipes, peers: map<PeerStreamKey, PipeId>, gone: set<PipeId>)
    requires PeersExact(pipes, peers)
    ensures PeersExact(Less(pipes, gone), Less(peers, KeysOf(pipes, gone)))
  {
    var left, keys := Less(pipes, gone), KeysOf(pipes, gone);
    forall p | p in left && left[p].PeerKey().Some? ensures left[p].PeerKey().value !in keys {
      var k := pipes[p].PeerKey().value;
      assert peers[k] == p;
    }
    forall k | k in peers && k !in keys ensures peers[k] in left { assert pipes[peers[k]].PeerKey() == Some(k); }
  }

  lemma RemoveManyOpens(s: State, gone: set<PipeId>)
    requires Inv(s)
    ensures OpensExact(Less(s.pipes, gone), s.attempts, Less(s.opens, IdentitiesOf(s.pipes, gone)))
  {
    var left, ids := Less(s.pipes, gone), IdentitiesOf(s.pipes, gone);
    var opens := Less(s.opens, ids);
    forall p | p in s.pipes && s.pipes[p].openIdentity.Some? ensures PipeOf(s.pipes[p].openIdentity.value) == p {
      assert PipeOk(s.gatewayId, s.sessions, s.authorizing, p, s.pipes[p]);
    }
    forall id | id in opens ensures InUse(left, s.attempts, id, opens[id]) {
      assert InUse(s.pipes, s.attempts, id, s.opens[id]);
    }
    forall id, key | InUse(left, s.attempts, id, key) ensures id in opens {
      assert InUse(s.pipes, s.attempts, id, key);
    }
  }

  lemma RemoveManyInv(s: State, gone: set<PipeId>)
    requires Inv(s)
    ensures Inv(PipesRemoved(s, gone))
  {
    RemoveManyPeers(s.pipes, s.peers, gone);
    RemoveManyOpens(s, gone);
    CountLeft(s.pipes, gone, PendingOffer);
    CountLeft(s.pipes, gone, LivePipe);
    CountLeft(s.pipes, gone, OriginatedPipe);
  }

  lemma OneGone(pipes: Pipes, p: PipeId, c: Class)
    requires p in pipes
    ensures Among(pipes, {p}, c) == One(Is(pipes[p], c))
  {
    assert GoneOf(pipes, {p}, c) == if Is(pipes[p], c) then {p} else {};
  }

  lemma OneUnindexed(s: State, p: PipeId)
    requires p in s.pipes
    ensures Less(s.peers, KeysOf(s.pipes, {p})) == UnindexPeer(s.peers, s.pipes[p])
    ensures Less(s.opens, IdentitiesOf(s.pipes, {p})) == UnindexOpen(s.opens, s.pipes[p])
    ensures Less(s.pipes, {p}) == Remove(s.pipes, p)
  {
    var e := s.pipes[p];
    assert forall k :: k in KeysOf(s.pipes, {p}) <==> e.PeerKey() == Some(k);
    assert forall id :: id in IdentitiesOf(s.pipes, {p}) <==> e.openIdentity == Some(id);
  }

  /** Removing one Pipe is removing a set of one. */
  lemma RemoveOne(s: State, p: PipeId)
    requires p in s.pipes
    ensures Removed(s, p) == PipesRemoved(s, {p})
  {
    OneGone(s.pipes, p, PendingOffer);
    OneGone(s.pipes, p, LivePipe);
    OneGone(s.pipes, p, OriginatedPipe);
    OneUnindexed(s, p);
  }

  lemma RemoveInv(s: State, p: PipeId)
    requires Inv(s)
    ensures Inv(Removed(s, p))
  {
    if p in s.pipes {
      RemoveOne(s, p);
      RemoveManyInv(s, {p});
    }
  }

  lemma PromoteOpens(s: State, p: PipeId)
    requires OpensExact(s.pipes, s.attempts, s.opens) && p in s.pipes
    ensures OpensExact(s.pipes[p := s.pipes[p].(phase := Live)], s.attempts, s.opens)
  {
    var e := s.pipes[p].(phase := Live);
    var pipes := s.pipes[p := e];
    assert e.PeerKey() == s.pipes[p].PeerKey();
    forall id | id in s.opens ensures InUse(pipes, s.attempts, id, s.opens[id]) {
      assert InUse(s.pipes, s.attempts, id, s.opens[id]);
    }
    forall id, key | InUse(pipes, s.attempts, id, key) ensures id in s.opens {
      assert InUse(s.pipes, s.attempts, id, key);
    }
  }

  lemma PromoteCounts(s: State, p: PipeId)
    requires CountsOk(s)
    ensures CountsOk(Promoted(s, p))
  {
    if p in s.pipes && s.pipes[p].phase == Offered {
      var e := s.pipes[p].(phase := Live);
      CountReplace(s.pipes, p, e, PendingOffer);
      CountReplace(s.pipes, p, e, LivePipe);
      CountReplace(s.pipes, p, e, OriginatedPipe);
    }
  }

  lemma PromoteInv(s: State, p: PipeId)
    requires Inv(s)
    ensures Inv(Promoted(s, p))
  {
    PromoteCounts(s, p);
    if p in s.pipes && s.pipes[p].phase == Offered {
      PromoteOpens(s, p);
      assert s.pipes[p].(phase := Live).PeerKey() == s.pipes[p].PeerKey();
    }
  }

  // ------------------------------------------------------------------ attempts

  lemma EndManyInv(s: State, ids: set<OpenIdentity>)
    requires Inv(s) && forall id :: id in ids ==> id in s.attempts
    ensures Inv(AttemptsEnded(s, ids))
  {
    var t := AttemptsEnded(s, ids);
    forall id | id in t.opens ensures InUse(t.pipes, t.attempts, id, t.opens[id]) {
      assert InUse(s.pipes, s.attempts, id, s.opens[id]);
    }
    forall id, key | InUse(t.pipes, t.attempts, id, key) ensures id in t.opens {
      assert InUse(s.pipes, s.attempts, id, key);
      assert id in ids ==> id in s.attempts;
    }
  }

  lemma EndOne(s: State, id: OpenIdentity)
    requires id in s.attempts
    ensures AttemptEnded(s, id) == AttemptsEnded(s, {id})
  {
    assert AttemptsEnded(s, {id}).attempts == WithoutOpen(s.attempts, id);
    assert AttemptsEnded(s, {id}).opens == WithoutOpen(s.opens, id);
  }

  lemma EndInv(s: State, id: OpenIdentity)
    requires Inv(s)
    ensures Inv(AttemptEnded(s, id))
  {
    if id in s.attempts {
      EndOne(s, id);
      EndManyInv(s, {id});
    }
  }

  /** A DIAL under way becomes an attempt of its own. */
  lemma StartInv(s: State, p: PipeId)
    requires Inv(s) && p in s.authorizing && p.originSession in s.sessions && s.gatewayId.Some?
    ensures var id := OpenIdentity(s.gatewayId.value, p.originSession, p.connectionId);
            id !in s.attempts && Inv(s.(authorizing := s.authorizing - {p},
                                        attempts := s.attempts[id := Attempt(p, Resolving)]))
  {
    var id := OpenIdentity(s.gatewayId.value, p.originSession, p.connectionId);
    var t := s.(authorizing := s.authorizing - {p}, attempts := s.attempts[id := Attempt(p, Resolving)]);
    assert PipeOf(id) == p;
    assert id !in s.attempts;
    forall x | x in t.opens ensures InUse(t.pipes, t.attempts, x, t.opens[x]) {
      assert InUse(s.pipes, s.attempts, x, s.opens[x]);
    }
    forall x, key | InUse(t.pipes, t.attempts, x, key) ensures x in t.opens {
      assert InUse(s.pipes, s.attempts, x, key);
    }
  }

  lemma PhaseInv(s: State, id: OpenIdentity)
    requires Inv(s) && id in s.attempts && s.attempts[id].phase == Resolving
    ensures Inv(s.(attempts := s.attempts[id := s.attempts[id].(phase := StartingPeer)]))
  {
    var t := s.(attempts := s.attempts[id := s.attempts[id].(phase := StartingPeer)]);
    forall x | x in t.opens ensures InUse(t.pipes, t.attempts, x, t.opens[x]) {
      assert InUse(s.pipes, s.attempts, x, s.opens[x]);
    }
    forall x, key | InUse(t.pipes, t.attempts, x, key) ensures x in t.opens {
      assert InUse(s.pipes, s.attempts, x, key);
    }
  }

  /** A commit reserves a stream; it finds the identity free. */
  lemma CommitInv(s: State, id: OpenIdentity, key: PeerStreamKey)
    requires Inv(s) && CommitAccepted(s, id, key)
    ensures Inv(Otherwise(s, Committed(id, key)))
  {
    var t := Otherwise(s, Committed(id, key));
    forall x | x in t.opens ensures InUse(t.pipes, t.attempts, x, t.opens[x]) {
      if x != id { assert InUse(s.pipes, s.attempts, x, s.opens[x]); }
    }
    forall x, k | InUse(t.pipes, t.attempts, x, k) ensures x in t.opens {
      if x != id { assert InUse(s.pipes, s.attempts, x, k); }
    }
  }

  // ------------------------------------------------------------------ sessions

  lemma AddSessionInv(s: State, session: Uuid)
    requires Inv(s) && session !in s.known
    ensures Inv(Otherwise(s, AddSession(session)))
  {
  }

  /** A connection id above all those its session has used. */
  predicate Higher(sessions: Sessions, p: PipeId) {
    && p.originSession in sessions
    && (sessions[p.originSession].Some? ==> p.connectionId > sessions[p.originSession].value)
  }

  function Raised(sessions: Sessions, p: PipeId): Sessions { sessions[p.originSession := Some(p.connectionId)] }

  lemma UsedStays(sessions: Sessions, p: PipeId, q: PipeId)
    requires Higher(sessions, p)
    ensures Used(sessions, q) ==> Used(Raised(sessions, p), q) && q != p
    ensures Used(Raised(sessions, p), p)
  {
  }

  lemma PreparePipes(s: State, p: PipeId, authorizing: set<PipeId>)
    requires PipesOk(s.gatewayId, s.sessions, s.authorizing, s.pipes)
    requires Higher(s.sessions, p) && authorizing <= s.authorizing + {p}
    ensures PipesOk(s.gatewayId, Raised(s.sessions, p), authorizing, s.pipes)
  {
    forall q | q in s.pipes ensures PipeOk(s.gatewayId, Raised(s.sessions, p), authorizing, q, s.pipes[q]) {
      UsedStays(s.sessions, p, q);
    }
  }

  lemma PrepareAttempts(s: State, p: PipeId, authorizing: set<PipeId>)
    requires AttemptsOk(s.gatewayId, s.sessions, s.authorizing, s.pipes, s.attempts)
    requires Higher(s.sessions, p) && authorizing <= s.authorizing + {p}
    ensures AttemptsOk(s.gatewayId, Raised(s.sessions, p), authorizing, s.pipes, s.attempts)
  {
    forall id | id in s.attempts
      ensures AttemptOk(s.gatewayId, Raised(s.sessions, p), authorizing, s.pipes, id, s.attempts[id])
    {
      UsedStays(s.sessions, p, s.attempts[id].pipeId);
    }
  }

  lemma PrepareDials(s: State, p: PipeId, authorizing: set<PipeId>)
    requires DialsOk(s.sessions, s.authorizing, s.known)
    requires Higher(s.sessions, p) && authorizing <= s.authorizing + {p}
    ensures DialsOk(Raised(s.sessions, p), authorizing, s.known)
  {
    forall q | q in authorizing
      ensures q.originSession in s.known && (q.originSession in s.sessions ==> Used(Raised(s.sessions, p), q))
    {
      UsedStays(s.sessions, p, q);
    }
  }

  lemma PrepareInv(s: State, p: PipeId, admitted: bool)
    requires Inv(s)
    ensures Inv(Otherwise(s, Prepare(p, admitted)))
  {
    if Higher(s.sessions, p) {
      var t := Otherwise(s, Prepare(p, admitted));
      PreparePipes(s, p, t.authorizing);
      PrepareAttempts(s, p, t.authorizing);
      PrepareDials(s, p, t.authorizing);
    }
  }

  lemma ForgoInv(s: State, p: PipeId)
    requires Inv(s)
    ensures Inv(s.(authorizing := s.authorizing - {p}))
  {
  }

  /** Without its attempts and Pipes nothing refers to a session any more. */
  lemma SessionUnused(s: State, session: Uuid)
    requires Inv(s)
    requires forall p :: p in s.pipes ==> !Owns(session, s.pipes[p])
    requires forall id :: id in s.attempts ==> s.attempts[id].pipeId.originSession != session
    ensures Inv(s.(sessions := Less(s.sessions, {session})))
  {
    var sessions := Less(s.sessions, {session});
    forall p | p in s.pipes ensures PipeOk(s.gatewayId, sessions, s.authorizing, p, s.pipes[p]) {
      assert PipeOk(s.gatewayId, s.sessions, s.authorizing, p, s.pipes[p]);
    }
    forall id | id in s.attempts ensures AttemptOk(s.gatewayId, sessions, s.authorizing, s.pipes, id, s.attempts[id]) {
      assert AttemptOk(s.gatewayId, s.sessions, s.authorizing, s.pipes, id, s.attempts[id]);
    }
  }

  lemma RemoveSessionInv(s: State, session: Uuid)
    requires Inv(s)
    ensures Inv(SessionRemoved(s, session))
  {
    if session in s.sessions {
      var t := AttemptsEnded(s, OwnAttempts(s.attempts, session));
      EndManyInv(s, OwnAttempts(s.attempts, session));
      RemoveManyInv(t, OwnedPipes(s.pipes, session));
      SessionUnused(PipesRemoved(t, OwnedPipes(s.pipes, session)), session);
    }
  }

  // ---------------------------------------------------------------- every event

  /** What the program around the state guarantees. */
  predicate Enabled(s: State, x: Step) {
    match x
    case AddSession(session) => session !in s.known          // session ids are drawn at random
    case Forgo(p) => p in s.authorizing                      // an admitted DIAL is answered once
    case Dial(p, _) => p in s.authorizing
    case ReceiveOpen(key, _, _, _) => s.gatewayId != Some(key.gateway)  // no Gateway is its own peer
    case _ => true
  }

  /** None of the program's assertions about new entries fails in this event. */
  predicate AssertionsHold(s: State, x: Step) {
    match AddedBy(s, x)
    case Adds(base, p, e) => Fresh(base, p, e)
    case NoPipe =>
      match x
      case Dial(p, local) =>
        DialRemote(s, p, local) ==> OpenIdentity(s.gatewayId.value, p.originSession, p.connectionId) !in s.attempts
      case Committed(id, key) => CommitAccepted(s, id, key) ==> id !in s.opens
      case _ => true
  }

  lemma OtherwiseInv(s: State, x: Step)
    requires Inv(s) && Enabled(s, x) && AddedBy(s, x).NoPipe?
    ensures Inv(Otherwise(s, x)) && AssertionsHold(s, x)
  {
    match x
    case AddSession(session) => AddSessionInv(s, session);
    case RemoveSession(session) => RemoveSessionInv(s, session);
    case Prepare(p, admitted) => PrepareInv(s, p, admitted);
    case Forgo(p) => ForgoInv(s, p);
    case Dial(p, local) => if DialRemote(s, p, local) { StartInv(s, p); } else { ForgoInv(s, p); }
    case RouteResolved(id, route) =>
      if id in s.attempts && s.attempts[id].phase == Resolving {
        if route.There? { PhaseInv(s, id); } else { EndInv(s, id); }
      }
    case Committed(id, key) => if CommitAccepted(s, id, key) { CommitInv(s, id, key); }
    case ReceiveOpen(_, _, _, _) =>
    case Answered(key, id) => if Answers(s, key, id) { EndInv(s, id); }
    case EndAttempt(id) => EndInv(s, id);
    case Accept(session, p) =>
      PromoteInv(s, p);
      RemoveInv(s, p);
    case RemovePipe(p) => RemoveInv(s, p);
    case Drain =>
  }

  /** The Pipe an event adds fits into the state it is added to. */
  lemma AdditionFits(s: State, x: Step)
    requires Inv(s) && Enabled(s, x) && AddedBy(s, x).Adds?
    ensures var a := AddedBy(s, x); Inv(a.base) && Fits(a.base, a.pipe, a.entry)
  {
    match x
    case Dial(p, local) => ForgoInv(s, p);
    case RouteResolved(id, _) => EndInv(s, id);
    case ReceiveOpen(key, id, listener, current) =>
    case Answered(key, id) => EndInv(s, id);
  }

  /** Every event keeps the invariant if and only if the program's assertions hold in it. */
  lemma NextExactly(s: State, x: Step)
    requires Inv(s) && Enabled(s, x)
    ensures Inv(Next(s, x)) <==> AssertionsHold(s, x)
  {
    match AddedBy(s, x)
    case NoPipe => OtherwiseInv(s, x);
    case Adds(base, p, e) =>
      AdditionFits(s, x);
      InsertExactly(base, p, e);
  }

  /**
   The assertions, event by event: an incoming OPEN never violates one, its guards see to that. A Pipe to an SDK
   session needs its identifier unused; an answered attempt needs its stream unused as well.
   */
  lemma AssertionsExactly(s: State, x: Step)
    requires Inv(s) && Enabled(s, x)
    ensures AssertionsHold(s, x) <==>
            match AddedBy(s, x)
            case NoPipe => true
            case Adds(_, p, _) => x.ReceiveOpen? || (p !in s.pipes && (x.Answered? ==> x.key !in s.peers))
  {
    match AddedBy(s, x)
    case NoPipe => OtherwiseInv(s, x);
    case Adds(base, p, e) =>
      AdditionFits(s, x);
      if p !in base.pipes { IdentityFree(base, p, e); }
  }

  // ------------------------------------------------------------------------ runs

  /** What peers and transports owe: a stream carries one OPEN, and a peer's OPEN names none of our sessions. */
  predicate Conforms(owner: PeerStreamKey -> OpenIdentity, ours: Uuid -> bool, x: Step) {
    match x
    case AddSession(session) => ours(session)
    case ReceiveOpen(key, id, _, _) => id == owner(key) && !ours(id.originSession)
    case Answered(key, id) => id == owner(key)
    case _ => true
  }

  /** Each Pipe on a peer stream is that stream's own, and only peers dial under others' sessions. */
  ghost predicate OwnStreams(owner: PeerStreamKey -> OpenIdentity, ours: Uuid -> bool, s: State) {
    && (forall p {:trigger s.pipes[p]} :: p in s.pipes ==> OwnStream(owner, ours, p, s.pipes[p]))
    && (forall x :: x in s.known ==> ours(x))
  }

  predicate OwnStream(owner: PeerStreamKey -> OpenIdentity, ours: Uuid -> bool, p: PipeId, e: PipeEntry) {
    && (e.PeerKey().Some? ==> e.openIdentity == Some(owner(e.PeerKey().value)))
    && (e.dialer.Peer? ==> !ours(p.originSession))
  }

  /** An attempt's Pipe identifier is free. */
  lemma AttemptPipeFree(owner: PeerStreamKey -> OpenIdentity, ours: Uuid -> bool, s: State, id: OpenIdentity)
    requires Inv(s) && OwnStreams(owner, ours, s) && id in s.attempts
    ensures s.attempts[id].pipeId !in s.pipes
  {
    assert AttemptOk(s.gatewayId, s.sessions, s.authorizing, s.pipes, id, s.attempts[id]);
    assert ours(id.originSession);
  }

  /** A stream whose OPEN is still an attempt has no Pipe. */
  lemma AttemptStreamFree(owner: PeerStreamKey -> OpenIdentity, ours: Uuid -> bool, s: State, key: PeerStreamKey)
    requires Inv(s) && OwnStreams(owner, ours, s) && owner(key) in s.attempts
    ensures key !in s.peers
  {
    var id := owner(key);
    assert s.attempts[id] == s.attempts[id];
    assert key in s.peers ==> s.pipes[s.peers[key]].PeerKey() == Some(key);
  }

  lemma ConformingHolds(owner: PeerStreamKey -> OpenIdentity, ours: Uuid -> bool, s: State, x: Step)
    requires Inv(s) && OwnStreams(owner, ours, s) && Enabled(s, x) && Conforms(owner, ours, x)
    ensures AssertionsHold(s, x)
  {
    AssertionsExactly(s, x);
    if AddedBy(s, x).Adds? {
      match x
      case Dial(p, _) => assert ours(p.originSession);
      case RouteResolved(id, _) => AttemptPipeFree(owner, ours, s, id);
      case ReceiveOpen(_, _, _, _) =>
      case Answered(key, id) =>
        AttemptPipeFree(owner, ours, s, id);
        AttemptStreamFree(owner, ours, s, key);
    }
  }

  /** Without a new Pipe, those there afterwards were there before, but for their phase. */
  lemma OtherwiseAddsNone(s: State, x: Step, p: PipeId)
    requires p in Otherwise(s, x).pipes
    ensures p in s.pipes && Otherwise(s, x).pipes[p].(phase := s.pipes[p].phase) == s.pipes[p]
  {
  }

  lemma ConformingOtherwise(owner: PeerStreamKey -> OpenIdentity, ours: Uuid -> bool, s: State, x: Step)
    requires OwnStreams(owner, ours, s) && Conforms(owner, ours, x)
    ensures OwnStreams(owner, ours, Otherwise(s, x))
  {
    var t := Otherwise(s, x);
    forall p | p in t.pipes ensures OwnStream(owner, ours, p, t.pipes[p]) {
      OtherwiseAddsNone(s, x, p);
      assert OwnStream(owner, ours, p, s.pipes[p]);
    }
    assert t.known == if x.AddSession? then s.known + {x.session} else s.known;
  }

  lemma ConformingAdds(owner: PeerStreamKey -> OpenIdentity, ours: Uuid -> bool, s: State, x: Step)
    requires Conforms(owner, ours, x) && AddedBy(s, x).Adds?
    ensures OwnStream(owner, ours, AddedBy(s, x).pipe, AddedBy(s, x).entry)
    ensures AddedBy(s, x).base.pipes == s.pipes && AddedBy(s, x).base.known == s.known
  {
  }

  lemma ConformingKeeps(owner: PeerStreamKey -> OpenIdentity, ours: Uuid -> bool, s: State, x: Step)
    requires OwnStreams(owner, ours, s) && Conforms(owner, ours, x)
    ensures OwnStreams(owner, ours, Next(s, x))
  {
    match AddedBy(s, x)
    case NoPipe => ConformingOtherwise(owner, ours, s, x);
    case Adds(base, p, e) => ConformingAdds(owner, ours, s, x);
  }

  ghost predicate Possible(s: State, run: seq<Step>)
    decreases |run|
  {
    run != [] ==> Enabled(s, run[0]) && Possible(Next(s, run[0]), run[1..])
  }

  ghost function After(s: State, run: seq<Step>): State
    decreases |run|
  {
    if run == [] then s else After(Next(s, run[0]), run[1..])
  }

  /** In every run of conforming events the invariant holds at the end, and no assertion has failed on the way. */
  ghost predicate AllHold(s: State, run: seq<Step>)
    decreases |run|
  {
    Inv(s) && (run != [] ==> AssertionsHold(s, run[0]) && AllHold(Next(s, run[0]), run[1..]))
  }

  lemma {:induction false} ConformingRun(owner: PeerStreamKey -> OpenIdentity, ours: Uuid -> bool, s: State,
                                         run: seq<Step>)
    requires Inv(s) && OwnStreams(owner, ours, s) && Possible(s, run)
    requires forall x :: x in run ==> Conforms(owner, ours, x)
    ensures AllHold(s, run) && Inv(After(s, run))
    decreases |run|
  {
    if run != [] {
      var x := run[0];
      ConformingHolds(owner, ours, s, x);
      NextExactly(s, x);
      ConformingKeeps(owner, ours, s, x);
      ConformingRun(owner, ours, Next(s, x), run[1..]);
    }
  }

  lemma NewInv(gatewayId: Option<Uuid>, limits: Limits)
    ensures Inv(NewState(gatewayId, limits))
  {
    NoneLeft(map[]);
    assert Matching(map[], OriginatedPipe) == {};
  }

  /** The tables of a new Gateway stay exact through every run of conforming events. */
  lemma TablesStayExact(owner: PeerStreamKey -> OpenIdentity, ours: Uuid -> bool, gatewayId: Option<Uuid>,
                        limits: Limits, run: seq<Step>)
    requires Possible(NewState(gatewayId, limits), run) && forall x :: x in run ==> Conforms(owner, ours, x)
    ensures AllHold(NewState(gatewayId, limits), run) && Inv(After(NewState(gatewayId, limits), run))
  {
    NewInv(gatewayId, limits);
    ConformingRun(owner, ours, NewState(gatewayId, limits), run);
  }

  // ------------------------------------------------- what conforming is needed for

  /** If a peer's OPEN takes the stream reserved for an attempt, the answer to that attempt violates an assertion. */
  lemma SharedStreamFails(s: State, key: PeerStreamKey, id: OpenIdentity, other: OpenIdentity, listener: Uuid)
    requires Inv(s) && id in s.attempts && s.attempts[id].phase == AwaitingPeer(key)
    requires Enabled(s, ReceiveOpen(key, other, listener, true)) && OpenAccepted(s, key, other, listener, true)
    ensures !AssertionsHold(Next(s, ReceiveOpen(key, other, listener, true)), Answered(key, id))
  {
    assert AttemptOk(s.gatewayId, s.sessions, s.authorizing, s.pipes, id, s.attempts[id]);
  }

  /** The same if a peer's OPEN names the session and connection of an attempt. */
  lemma NamedSessionFails(s: State, key: PeerStreamKey, id: OpenIdentity, taken: PeerStreamKey, other: OpenIdentity,
                          listener: Uuid)
    requires Inv(s) && Answers(s, key, id) && PipeOf(other) == PipeOf(id)
    requires Enabled(s, ReceiveOpen(taken, other, listener, true)) && OpenAccepted(s, taken, other, listener, true)
    ensures !AssertionsHold(Next(s, ReceiveOpen(taken, other, listener, true)), Answered(key, id))
  {
    assert AttemptOk(s.gatewayId, s.sessions, s.authorizing, s.pipes, id, s.attempts[id]);
  }

  lemma {:induction false} RunOn(s: State, run: seq<Step>, x: Step)
    requires Possible(s, run) && Enabled(After(s, run), x)
    ensures Possible(s, run + [x]) && After(s, run + [x]) == Next(After(s, run), x)
    decreases |run|
  {
    var longer := run + [x];
    if run == [] {
      assert longer[0] == x && longer[1..] == [];
    } else {
      assert longer[0] == run[0] && longer[1..] == run[1..] + [x];
      RunOn(Next(s, run[0]), run[1..], x);
    }
  }

  /** Two sessions, and one attempt of the first that has got so far. */
  function OneAttempt(gateway: Uuid, limits: Limits, p: PipeId, listener: Uuid, phase: AttemptPhase): State {
    var id := OpenIdentity(gateway, p.originSession, p.connectionId);
    NewState(Some(gateway), limits).(
      sessions := map[p.originSession := Some(p.connectionId), listener := None],
      known := {p.originSession, listener},
      opens := if phase.AwaitingPeer? then map[id := phase.key] else map[],
      attempts := map[id := Attempt(p, phase)])
  }

  lemma ReachResolving(gateway: Uuid, limits: Limits, p: PipeId, listener: Uuid) returns (run: seq<Step>)
    requires p.originSession != listener && limits.maxLive > 0 && limits.maxPending > 0 && limits.maxAttempts > 0
    ensures Possible(NewState(Some(gateway), limits), run)
    ensures After(NewState(Some(gateway), limits), run) == OneAttempt(gateway, limits, p, listener, Resolving)
  {
    var s := NewState(Some(gateway), limits);
    RunOn(s, [], AddSession(p.originSession));
    RunOn(s, [] + [AddSession(p.originSession)], AddSession(listener));
    run := [] + [AddSession(p.originSession)] + [AddSession(listener)];
    var t := s.(sessions := map[p.originSession := None, listener := None], known := {p.originSession, listener});
    assert After(s, run) == t;
    RunOn(s, run, Prepare(p, true));
    RunOn(s, run + [Prepare(p, true)], Step.Dial(p, None));
    run := run + [Prepare(p, true)] + [Step.Dial(p, None)];
  }

  lemma ReachAwaiting(gateway: Uuid, limits: Limits, p: PipeId, listener: Uuid, key: PeerStreamKey)
    returns (run: seq<Step>)
    requires p.originSession != listener && limits.maxLive > 0 && limits.maxPending > 0 && limits.maxAttempts > 0
    ensures Possible(NewState(Some(gateway), limits), run)
    ensures After(NewState(Some(gateway), limits), run)
            == OneAttempt(gateway, limits, p, listener, AwaitingPeer(key))
  {
    var s, id := NewState(Some(gateway), limits), OpenIdentity(gateway, p.originSession, p.connectionId);
    run := ReachResolving(gateway, limits, p, listener);
    RunOn(s, run, RouteResolved(id, There));
    assert After(s, run + [RouteResolved(id, There)]) == OneAttempt(gateway, limits, p, listener, StartingPeer);
    RunOn(s, run + [RouteResolved(id, There)], Committed(id, key));
    run := run + [RouteResolved(id, There)] + [Committed(id, key)];
  }

  /** The stream of the one attempt is taken by a peer's OPEN. */
  lemma TakenStream(gateway: Uuid, limits: Limits, p: PipeId, listener: Uuid, key: PeerStreamKey, other: OpenIdentity)
    requires p.originSession != listener && limits.maxLive > 0 && limits.maxPending > 1
    requires other.entryGateway == key.gateway && gateway != key.gateway
    ensures var s := OneAttempt(gateway, limits, p, listener, AwaitingPeer(key));
            var t := Next(s, ReceiveOpen(key, other, listener, true));
            !AssertionsHold(t, Answered(key, OpenIdentity(gateway, p.originSession, p.connectionId)))
  {
    var s := OneAttempt(gateway, limits, p, listener, AwaitingPeer(key));
    assert OpenAccepted(s, key, other, listener, true);
  }

  /** Such runs exist: any peer stream may be reserved for an attempt and then taken by any OPEN of that peer. */
  lemma FailureReachable(gateway: Uuid, limits: Limits, p: PipeId, listener: Uuid, key: PeerStreamKey,
                         other: OpenIdentity) returns (run: seq<Step>)
    requires p.originSession != listener && limits.maxLive > 0 && limits.maxPending > 1 && limits.maxAttempts > 0
    requires key.gateway != gateway && other.entryGateway == key.gateway
    ensures Possible(NewState(Some(gateway), limits), run)
    ensures !AssertionsHold(After(NewState(Some(gateway), limits), run),
                            Answered(key, OpenIdentity(gateway, p.originSession, p.connectionId)))
  {
    var s := NewState(Some(gateway), limits);
    run := ReachAwaiting(gateway, limits, p, listener, key);
    TakenStream(gateway, limits, p, listener, key, other);
    RunOn(s, run, ReceiveOpen(key, other, listener, true));
    run := run + [ReceiveOpen(key, other, listener, true)];
  }

  // -------------------------------------------------------------- consequences

  /** Counters at zero and no attempt: every table is empty. */
  lemma DrainedMeansEmpty(s: State)
    requires Inv(s)
    ensures s.pending == 0 && s.live == 0 && s.attempts == map[] <==>
            s.pipes == map[] && s.attempts == map[] && s.peers == map[] && s.opens == map[]
  {
    NoneLeft(s.pipes);
    if s.pipes == map[] && s.attempts == map[] {
      forall id ensures id !in s.opens { UseOf(s.pipes, s.attempts, s.opens, id); }
      assert s.opens == map[];
      assert s.peers == map[];
    }
  }

  /** Nothing of a removed session is left, and nothing else has gone. */
  lemma SessionLeavesNothing(s: State, session: Uuid, p: PipeId, id: OpenIdentity)
    requires Inv(s) && session in s.sessions
    ensures var t := SessionRemoved(s, session);
            && (p in t.pipes <==> p in s.pipes && !Owns(session, s.pipes[p]))
            && (p in t.pipes ==> t.pipes[p] == s.pipes[p])
            && (id in t.attempts <==> id in s.attempts && id.originSession != session)
            && (id in t.attempts ==> t.attempts[id] == s.attempts[id])
  {
    if id in s.attempts { assert AttemptOk(s.gatewayId, s.sessions, s.authorizing, s.pipes, id, s.attempts[id]); }
  }

  /** An identity is freed exactly when its attempt or its Pipe was the session's. */
  lemma SessionFreesItsOpens(s: State, session: Uuid, id: OpenIdentity)
    requires Inv(s) && session in s.sessions && id in s.opens
    ensures id !in SessionRemoved(s, session).opens <==>
            if id in s.attempts then id.originSession == session
            else PipeOf(id) in s.pipes && Owns(session, s.pipes[PipeOf(id)])
  {
    var t := SessionRemoved(s, session);
    RemoveSessionInv(s, session);
    SessionLeavesNothing(s, session, PipeOf(id), id);
    UseOf(s.pipes, s.attempts, s.opens, id);
    UseOf(t.pipes, t.attempts, t.opens, id);
    assert InUse(t.pipes, t.attempts, id, s.opens[id]) ==> id in t.opens;
  }
}
