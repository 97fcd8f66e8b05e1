/** The Gateway's tables as the program keeps them: maps and counters changed in place by each event. */
module GatewayObject {
  import opened Common
  import opened PeerFrames
  import SdkCodec
  import opened GatewayPipes
  import GatewayRuns

  type PipeId = SdkCodec.PipeId

  lemma EndOneMore(s: State, done: set<OpenIdentity>, id: OpenIdentity)
    requires id in s.attempts && id !in done
    ensures AttemptEnded(AttemptsEnded(s, done), id) == AttemptsEnded(s, done + {id})
  {
    assert WithoutOpen(Less(s.attempts, done), id) == Less(s.attempts, done + {id});
    assert WithoutOpen(Less(s.opens, done), id) == Less(s.opens, done + {id});
  }

  lemma NothingEnded(s: State)
    ensures AttemptsEnded(s, {}) == s
  {
    assert Less(s.attempts, {}) == s.attempts && Less(s.opens, {}) == s.opens;
  }

  lemma NothingRemoved(s: State)
    ensures PipesRemoved(s, {}) == s
  {
    assert KeysOf(s.pipes, {}) == {} && IdentitiesOf(s.pipes, {}) == {};
    assert Less(s.pipes, {}) == s.pipes && Less(s.peers, {}) == s.peers && Less(s.opens, {}) == s.opens;
    assert forall c :: GoneOf(s.pipes, {}, c) == {};
  }

  lemma OneMoreGone(pipes: Pipes, done: set<PipeId>, p: PipeId, c: Class)
    requires p in pipes && p !in done
    ensures Among(pipes, done + {p}, c) == Among(pipes, done, c) + One(Is(pipes[p], c))
  {
    if Is(pipes[p], c) { assert GoneOf(pipes, done + {p}, c) == GoneOf(pipes, done, c) + {p}; }
    else { assert GoneOf(pipes, done + {p}, c) == GoneOf(pipes, done, c); }
  }

  lemma OneMoreUnindexed(s: State, done: set<PipeId>, p: PipeId)
    requires p in s.pipes && p !in done
    ensures Remove(Less(s.pipes, done), p) == Less(s.pipes, done + {p})
    ensures UnindexPeer(Less(s.peers, KeysOf(s.pipes, done)), s.pipes[p])
            == Less(s.peers, KeysOf(s.pipes, done + {p}))
    ensures UnindexOpen(Less(s.opens, IdentitiesOf(s.pipes, done)), s.pipes[p])
            == Less(s.opens, IdentitiesOf(s.pipes, done + {p}))
  {
    var e := s.pipes[p];
    assert forall k :: k in KeysOf(s.pipes, done + {p}) <==> k in KeysOf(s.pipes, done) || e.PeerKey() == Some(k);
    assert forall id :: id in IdentitiesOf(s.pipes, done + {p}) <==>
                        id in IdentitiesOf(s.pipes, done) || e.openIdentity == Some(id);
  }

  lemma RemoveOneMore(s: State, done: set<PipeId>, p: PipeId)
    requires p in s.pipes && p !in done
    ensures Removed(PipesRemoved(s, done), p) == PipesRemoved(s, done + {p})
  {
    OneMoreUnindexed(s, done, p);
    OneMoreGone(s.pipes, done, p, PendingOffer);
    OneMoreGone(s.pipes, done, p, LivePipe);
    OneMoreGone(s.pipes, done, p, OriginatedPipe);
  }

  class GatewayState {
    const gatewayId: Option<Uuid>
    const limits: Limits
    var draining: bool
    var sessions: map<Uuid, Option<U64>>
    var pipes: Pipes
    var peerPipes: map<PeerStreamKey, PipeId>
    var activePeerOpens: map<OpenIdentity, PeerStreamKey>
    var remoteOpenAttempts: Attempts
    var pendingOffers: int
    var livePipes: int
    var originatedPipes: int
    ghost var authorizing: set<PipeId>
    ghost var known: set<Uuid>

    ghost function Value(): State
      reads this
    {
      State(gatewayId, limits, draining, sessions, pipes, peerPipes, activePeerOpens, remoteOpenAttempts,
            pendingOffers, livePipes, originatedPipes, authorizing, known)
    }

    ghost predicate Valid()
      reads this
    {
      GatewayRuns.Inv(Value())
    }

    /** The event keeps the tables exact if and only if no assertion of the program fails in it. */
    twostate predicate Happened(x: Step)
      reads this
    {
      && Value() == Next(old(Value()), x)
      && (old(Valid()) && GatewayRuns.Enabled(old(Value()), x) ==>
            (Valid() <==> GatewayRuns.AssertionsHold(old(Value()), x)))
    }

    constructor (gatewayId: Option<Uuid>, limits: Limits)
      ensures Valid() && Value() == NewState(gatewayId, limits)
    {
      this.gatewayId, this.limits, draining := gatewayId, limits, false;
      sessions, pipes, peerPipes, activePeerOpens, remoteOpenAttempts := map[], map[], map[], map[], map[];
      pendingOffers, livePipes, originatedPipes, authorizing, known := 0, 0, 0, {}, {};
      new;
      GatewayRuns.NewInv(gatewayId, limits);
    }

    ghost method Judge(x: Step)
      ensures GatewayRuns.Inv(Value()) && GatewayRuns.Enabled(Value(), x) ==>
                (GatewayRuns.Inv(Next(Value(), x)) <==> GatewayRuns.AssertionsHold(Value(), x))
    {
      if GatewayRuns.Inv(Value()) && GatewayRuns.Enabled(Value(), x) { GatewayRuns.NextExactly(Value(), x); }
    }

    // ---------------------------------------------------------------- the tables

    method IndexPeerPipe(p: PipeId, e: PipeEntry)
      modifies this`peerPipes, this`activePeerOpens
      ensures peerPipes == IndexPeer(old(peerPipes), p, e) && activePeerOpens == IndexOpen(old(activePeerOpens), e)
    {
      if e.PeerKey().None? { return; }
      peerPipes := peerPipes[e.PeerKey().value := p];
      if e.openIdentity.Some? { activePeerOpens := activePeerOpens[e.openIdentity.value := e.PeerKey().value]; }
    }

    method InsertOffer(p: PipeId, e: PipeEntry)
      requires e.phase == Offered
      modifies this`pipes, this`peerPipes, this`activePeerOpens, this`pendingOffers
      ensures Value() == Inserted(old(Value()), p, e)
    {
      IndexPeerPipe(p, e);
      pipes := pipes[p := e];
      pendingOffers := pendingOffers + 1;
    }

    method InsertOpen(p: PipeId, e: PipeEntry)
      requires e.phase == Live
      modifies this`pipes, this`peerPipes, this`activePeerOpens, this`livePipes, this`originatedPipes
      ensures Value() == Inserted(old(Value()), p, e)
    {
      IndexPeerPipe(p, e);
      if e.dialer.Sdk? { originatedPipes := originatedPipes + 1; }
      pipes := pipes[p := e];
      livePipes := livePipes + 1;
    }

    method DropPipe(p: PipeId) returns (r: Option<PipeEntry>)
      modifies this`pipes, this`peerPipes, this`activePeerOpens, this`pendingOffers, this`livePipes,
               this`originatedPipes
      ensures Value() == Removed(old(Value()), p)
      ensures r == if p in old(pipes) then Some(old(pipes)[p]) else None
    {
      if p !in pipes { return None; }
      var e := pipes[p];
      pipes := Remove(pipes, p);
      if e.PeerKey().Some? { peerPipes := UnindexPeer(peerPipes, e); }
      if e.openIdentity.Some? { activePeerOpens := UnindexOpen(activePeerOpens, e); }
      match e.phase {
        case Offered => pendingOffers := pendingOffers - 1;
        case Live =>
          livePipes := livePipes - 1;
          if e.dialer.Sdk? { originatedPipes := originatedPipes - 1; }
      }
      return Some(e);
    }

    method RemovePipe(p: PipeId) returns (r: Option<PipeEntry>)
      modifies this
      ensures Happened(Step.RemovePipe(p)) && r == if p in old(pipes) then Some(old(pipes)[p]) else None
    {
      Judge(Step.RemovePipe(p));
      r := DropPipe(p);
    }

    method PromoteOffer(p: PipeId) returns (ok: bool)
      modifies this`pipes, this`pendingOffers, this`livePipes, this`originatedPipes
      ensures Value() == Promoted(old(Value()), p) && ok == (p in old(pipes) && old(pipes)[p].phase == Offered)
    {
      if p !in pipes || pipes[p].phase != Offered { return false; }
      pipes := pipes[p := pipes[p].(phase := Live)];
      pendingOffers := pendingOffers - 1;
      livePipes := livePipes + 1;
      if pipes[p].dialer.Sdk? { originatedPipes := originatedPipes + 1; }
      return true;
    }

    /** `violation` says that the session is not the Pipe's acceptor. */
    method OfferAccepted(session: Uuid, p: PipeId) returns (violation: bool)
      modifies this
      ensures Happened(Accept(session, p))
      ensures violation == (p in old(pipes) && old(pipes)[p].acceptor != Sdk(session))
    {
      Judge(Accept(session, p));
      if p !in pipes { return false; }
      if pipes[p].acceptor != Sdk(session) { return true; }
      if pipes[p].phase != Offered || livePipes >= limits.maxLive {
        var _ := DropPipe(p);
      } else {
        var _ := PromoteOffer(p);
      }
      return false;
    }

    /** True exactly when no Pipe and no remote attempt is left; then no stream and no identity is in use either. */
    method IsDrained() returns (r: bool)
      requires Valid()
      ensures r <==> pipes == map[] && remoteOpenAttempts == map[]
      ensures r ==> peerPipes == map[] && activePeerOpens == map[]
    {
      GatewayRuns.DrainedMeansEmpty(Value());
      NoneLeft(pipes);
      r := pendingOffers == 0 && livePipes == 0 && remoteOpenAttempts == map[];
    }

    // ------------------------------------------------------------------- dialing

    predicate PendingCapacityReached()
      reads this
      ensures PendingCapacityReached() <==> PendingFull(Value())
    {
      pendingOffers + |remoteOpenAttempts| >= limits.maxPending
    }

    method Dial(p: PipeId, local: Option<Uuid>)
      modifies this
      ensures Happened(Step.Dial(p, local))
    {
      Judge(Step.Dial(p, local));
      authorizing := authorizing - {p};
      if p.originSession !in sessions || draining || livePipes >= limits.maxLive { return; }
      if PendingCapacityReached() { return; }
      if local.Some? {
        OfferLocal(p, local.value);
        return;
      }
      if gatewayId.None? || |remoteOpenAttempts| >= limits.maxAttempts { return; }
      var id := OpenIdentity(gatewayId.value, p.originSession, p.connectionId);
      remoteOpenAttempts := remoteOpenAttempts[id := Attempt(p, Resolving)];
    }

    method OfferLocal(p: PipeId, listener: Uuid)
      modifies this`pipes, this`peerPipes, this`activePeerOpens, this`pendingOffers
      ensures Value() == if listener in old(sessions) then Inserted(old(Value()), p, LocalOffer(p, listener))
                         else old(Value())
    {
      if listener !in sessions { return; }
      InsertOffer(p, LocalOffer(p, listener));
    }

    // ------------------------------------------------------------ remote attempts

    method TakeRemoteAttempt(id: OpenIdentity) returns (r: Option<Attempt>)
      modifies this`remoteOpenAttempts, this`activePeerOpens
      ensures Value() == AttemptEnded(old(Value()), id)
      ensures r == if id in old(remoteOpenAttempts) then Some(old(remoteOpenAttempts)[id]) else None
    {
      if id !in remoteOpenAttempts { return None; }
      r := Some(remoteOpenAttempts[id]);
      remoteOpenAttempts := WithoutOpen(remoteOpenAttempts, id);
      activePeerOpens := WithoutOpen(activePeerOpens, id);
    }

    method EndAttempt(id: OpenIdentity) returns (r: Option<Attempt>)
      modifies this
      ensures Happened(Step.EndAttempt(id))
    {
      Judge(Step.EndAttempt(id));
      r := TakeRemoteAttempt(id);
    }

    method RouteResolved(id: OpenIdentity, route: Route)
      modifies this
      ensures Happened(Step.RouteResolved(id, route))
    {
      Judge(Step.RouteResolved(id, route));
      if id !in remoteOpenAttempts || remoteOpenAttempts[id].phase != Resolving { return; }
      var p := remoteOpenAttempts[id].pipeId;
      match route {
        case There =>
          remoteOpenAttempts := remoteOpenAttempts[id := remoteOpenAttempts[id].(phase := StartingPeer)];
        case Nowhere => var _ := TakeRemoteAttempt(id);
        case Here(listener) =>
          var _ := TakeRemoteAttempt(id);
          if listener.Some? { OfferLocal(p, listener.value); }
      }
    }

    method PeerOpenCommitted(id: OpenIdentity, key: PeerStreamKey)
      modifies this
      ensures Happened(Committed(id, key))
    {
      Judge(Committed(id, key));
      if id !in remoteOpenAttempts || remoteOpenAttempts[id].phase != StartingPeer { return; }
      if key in peerPipes || id in activePeerOpens || exists x :: x in activePeerOpens && activePeerOpens[x] == key {
        return;
      }
      activePeerOpens := activePeerOpens[id := key];
      remoteOpenAttempts := remoteOpenAttempts[id := remoteOpenAttempts[id].(phase := AwaitingPeer(key))];
    }

    /** `current` says that the registry still has the binding the peer selected. */
    method ReceivePeerOpen(key: PeerStreamKey, id: OpenIdentity, listener: Uuid, current: bool)
      modifies this
      ensures Happened(ReceiveOpen(key, id, listener, current))
    {
      Judge(ReceiveOpen(key, id, listener, current));
      if draining || id.entryGateway != key.gateway { return; }
      if key in peerPipes || id in activePeerOpens || id in remoteOpenAttempts { return; }
      if livePipes >= limits.maxLive || PendingCapacityReached() { return; }
      if listener !in sessions || !current { return; }
      if PipeOf(id) in pipes { return; }
      InsertOffer(PipeOf(id), PeerOffer(key, id, listener));
    }

    method PeerOpened(key: PeerStreamKey, id: OpenIdentity)
      modifies this
      ensures Happened(Answered(key, id))
    {
      Judge(Answered(key, id));
      if id !in remoteOpenAttempts { return; }
      match remoteOpenAttempts[id].phase {
        case Resolving => return;
        case StartingPeer =>
        case AwaitingPeer(reserved) => if reserved != key { return; }
      }
      var attempt := TakeRemoteAttempt(id);
      var p := attempt.value.pipeId;
      if p.originSession !in sessions || livePipes >= limits.maxLive { return; }
      InsertOpen(p, PeerPipe(key, id));
    }

    // ------------------------------------------------------------------ sessions

    method AddSession(session: Uuid)
      modifies this
      ensures Happened(Step.AddSession(session))
    {
      Judge(Step.AddSession(session));
      sessions := sessions[session := None];
      known := known + {session};
    }

    method BeginDraining()
      modifies this
      ensures Happened(Drain)
    {
      Judge(Drain);
      draining := true;
    }

    /** A DIAL with a connection id that its session has used before is refused. */
    method PrepareDial(p: PipeId, admitted: bool) returns (ok: bool)
      modifies this
      ensures Happened(Prepare(p, admitted))
      ensures ok <==> GatewayRuns.Higher(old(sessions), p) && admitted && !draining
    {
      Judge(Prepare(p, admitted));
      if p.originSession !in sessions { return false; }
      var highest := sessions[p.originSession];
      if highest.Some? && p.connectionId <= highest.value { return false; }
      sessions := sessions[p.originSession := Some(p.connectionId)];
      if draining || !admitted { return false; }
      authorizing := authorizing + {p};
      return true;
    }

    method EndAttemptsOf(session: Uuid)
      modifies this`remoteOpenAttempts, this`activePeerOpens
      ensures Value() == AttemptsEnded(old(Value()), OwnAttempts(old(remoteOpenAttempts), session))
    {
      ghost var before, own := Value(), OwnAttempts(remoteOpenAttempts, session);
      var left := OwnAttempts(remoteOpenAttempts, session);
      NothingEnded(before);
      assert own - left == {};
      while left != {}
        invariant left <= own && Value() == AttemptsEnded(before, own - left)
        decreases |left|
      {
        var id :| id in left;
        EndOneMore(before, own - left, id);
        assert own - (left - {id}) == own - left + {id};
        var _ := TakeRemoteAttempt(id);
        left := left - {id};
      }
      assert own - left == own;
    }

    method DropPipesOf(session: Uuid)
      modifies this`pipes, this`peerPipes, this`activePeerOpens, this`pendingOffers, this`livePipes,
               this`originatedPipes
      ensures Value() == PipesRemoved(old(Value()), OwnedPipes(old(pipes), session))
    {
      ghost var before, owned := Value(), OwnedPipes(pipes, session);
      var left := OwnedPipes(pipes, session);
      NothingRemoved(before);
      assert owned - left == {};
      while left != {}
        invariant left <= owned && Value() == PipesRemoved(before, owned - left)
        decreases |left|
      {
        var p :| p in left;
        RemoveOneMore(before, owned - left, p);
        assert owned - (left - {p}) == owned - left + {p};
        var _ := DropPipe(p);
        left := left - {p};
      }
      assert owned - left == owned;
    }

    method RemoveSession(session: Uuid)
      modifies this
      ensures Happened(Step.RemoveSession(session))
    {
      Judge(Step.RemoveSession(session));
      if session !in sessions { return; }
      sessions := Less(sessions, {session});
      EndAttemptsOf(session);
      DropPipesOf(session);
    }
  }
}
