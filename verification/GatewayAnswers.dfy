/**
 What the Gateway does with each event, in the terms of whoever caused it: when
 it refuses, what it enters where, and what no run exceeds.
 */
module GatewayAnswers {
  import opened Common
  import opened PeerFrames
  import opened SdkCodec
  import opened GatewayPipes
  import GatewayRuns

  // ------------------------------------------------------------------- dialing

  /** No new Pipe is begun: the Gateway is draining, or has too many live Pipes or too many under way. */
  predicate Closed(s: State) {
    s.draining || s.live >= s.limits.maxLive || s.pending + |s.attempts| >= s.limits.maxPending
  }

  /** A DIAL is admitted only with a connection id above all its session has used, and never while draining. */
  lemma PrepareAnswered(s: State, p: PipeId, admitted: bool)
    ensures var n := Next(s, Prepare(p, admitted));
            var above := p.originSession in s.sessions
                         && (s.sessions[p.originSession].Some? ==> s.sessions[p.originSession].value < p.connectionId);
            if !above then n == s
            else n == s.(sessions := s.sessions[p.originSession := Some(p.connectionId)],
                         authorizing := if admitted && !s.draining then s.authorizing + {p} else s.authorizing)
  {
  }

  /** A DIAL whose session is gone, or that meets a closed Gateway, leaves nothing behind. */
  lemma DialRefused(s: State, p: PipeId, local: Option<Uuid>)
    requires p.originSession !in s.sessions || Closed(s)
    ensures Next(s, Step.Dial(p, local)) == s.(authorizing := s.authorizing - {p})
  {
  }

  /** With a binding here, a DIAL becomes an offer from the dialer to that binding's session. */
  lemma DialOffered(s: State, p: PipeId, listener: Uuid)
    requires p.originSession in s.sessions && !Closed(s)
    ensures var offer := PipeEntry(Sdk(p.originSession), Sdk(listener), None, Offered);
            var rest := s.(authorizing := s.authorizing - {p});
            Next(s, Step.Dial(p, Some(listener))) ==
            if listener in s.sessions then rest.(pipes := s.pipes[p := offer], pending := s.pending + 1) else rest
  {
  }

  /** Without one, it becomes an attempt under this Gateway's own OPEN identity, if there is room for attempts. */
  lemma DialAttempted(s: State, p: PipeId)
    requires p.originSession in s.sessions && !Closed(s)
    ensures var rest := s.(authorizing := s.authorizing - {p});
            Next(s, Step.Dial(p, None)) ==
            if s.gatewayId.None? || |s.attempts| >= s.limits.maxAttempts then rest
            else rest.(attempts := s.attempts[OpenIdentity(s.gatewayId.value, p.originSession, p.connectionId) :=
                                              Attempt(p, Resolving)])
  {
  }

  // ------------------------------------------------------------------ attempts

  predicate InPhase(s: State, id: OpenIdentity, phase: AttemptPhase) {
    id in s.attempts && s.attempts[id].phase == phase
  }

  /** A resolved route moves on the attempt that waits for it: to a peer, to a session here, or to its end. */
  lemma RouteAnswered(s: State, id: OpenIdentity, route: Route)
    ensures var n := Next(s, RouteResolved(id, route));
            if !InPhase(s, id, Resolving) then n == s
            else
              var p := s.attempts[id].pipeId;
              var without := s.(attempts := map i | i in s.attempts && i != id :: s.attempts[i],
                                opens := map i | i in s.opens && i != id :: s.opens[i]);
              match route
              case There => n == s.(attempts := s.attempts[id := Attempt(p, StartingPeer)])
              case Nowhere => n == without
              case Here(None) => n == without
              case Here(Some(listener)) =>
                n == if listener !in s.sessions then without
                     else without.(pending := s.pending + 1,
                                   pipes := s.pipes[p := PipeEntry(Sdk(p.originSession), Sdk(listener), None, Offered)])
  {
  }

  /** A committed OPEN reserves its stream, unless the stream or the identity is in use. */
  lemma CommitAnswered(s: State, id: OpenIdentity, key: PeerStreamKey)
    ensures var n := Next(s, Committed(id, key));
            if InPhase(s, id, StartingPeer) && key !in s.peers && id !in s.opens && key !in s.opens.Values
            then n == s.(opens := s.opens[id := key],
                         attempts := s.attempts[id := Attempt(s.attempts[id].pipeId, AwaitingPeer(key))])
            else n == s
  {
    assert key in s.opens.Values <==> exists other :: other in s.opens && s.opens[other] == key;
  }

  /** OPENED ends the attempt that waits for it; its Pipe is live if the dialer still is and the limit allows. */
  lemma OpenedAnswered(s: State, key: PeerStreamKey, id: OpenIdentity)
    ensures var n := Next(s, Answered(key, id));
            if !InPhase(s, id, StartingPeer) && !InPhase(s, id, AwaitingPeer(key)) then n == s
            else
              var p := s.attempts[id].pipeId;
              var without := s.(attempts := map i | i in s.attempts && i != id :: s.attempts[i],
                                opens := map i | i in s.opens && i != id :: s.opens[i]);
              n == if p.originSession !in s.sessions || s.live >= s.limits.maxLive then without
                   else without.(pipes := s.pipes[p := PipeEntry(Sdk(id.originSession), Peer(key), Some(id), Live)],
                                 peers := s.peers[key := p], opens := without.opens[id := key],
                                 live := s.live + 1, originated := s.originated + 1)
  {
  }

  // ------------------------------------------------------------ incoming OPENs

  /** An OPEN that cannot be offered: closed Gateway, another's identity, anything in use, or the binding is gone. */
  predicate Unwelcome(s: State, key: PeerStreamKey, id: OpenIdentity, listener: Uuid, current: bool) {
    || Closed(s) || id.entryGateway != key.gateway
    || key in s.peers || id in s.opens || id in s.attempts || PipeId(id.originSession, id.connectionId) in s.pipes
    || listener !in s.sessions || !current
  }

  /** It then leaves nothing behind; any other becomes an offer from that stream to the listener. */
  lemma OpenAnswered(s: State, key: PeerStreamKey, id: OpenIdentity, listener: Uuid, current: bool)
    ensures var n := Next(s, ReceiveOpen(key, id, listener, current));
            var p := PipeId(id.originSession, id.connectionId);
            n == if Unwelcome(s, key, id, listener, current) then s
                 else s.(pipes := s.pipes[p := PipeEntry(Peer(key), Sdk(listener), Some(id), Offered)],
                         peers := s.peers[key := p], opens := s.opens[id := key], pending := s.pending + 1)
  {
  }

  /** Accepting makes an offer live; at the limit, or a second time, it costs the Pipe and all it had in use. */
  lemma AcceptAnswered(s: State, session: Uuid, p: PipeId)
    requires p in s.pipes && s.pipes[p].acceptor == Sdk(session)
    ensures var n, e := Next(s, Accept(session, p)), s.pipes[p];
            if e.phase == Offered && s.live < s.limits.maxLive then
              && p in n.pipes && n.pipes[p] == e.(phase := Live) && n.peers == s.peers && n.opens == s.opens
              && n.live == s.live + 1 && n.pending == s.pending - 1
            else
              && p !in n.pipes && (e.dialer.Peer? ==> e.dialer.key !in n.peers)
              && (e.openIdentity.Some? ==> e.openIdentity.value !in n.opens)
              && n.live + n.pending == s.live + s.pending - 1
    ensures var n := Next(s, Accept(session, p));
            forall q :: q != p ==> (q in n.pipes <==> q in s.pipes) && (q in s.pipes ==> n.pipes[q] == s.pipes[q])
  {
  }

  /** Only the acceptor of a Pipe accepts it. */
  lemma OnlyAcceptorAccepts(s: State, session: Uuid, p: PipeId)
    requires p !in s.pipes || s.pipes[p].acceptor != Sdk(session)
    ensures Next(s, Accept(session, p)) == s
  {
  }

  // -------------------------------------------------------- what no run exceeds

  ghost predicate Within(s: State) {
    && s.live <= s.limits.maxLive
    && s.pending + |s.attempts| <= s.limits.maxPending
    && |s.attempts| <= s.limits.maxAttempts
  }

  lemma KeysCount<K, V>(m: map<K, V>)
    ensures |m| == |m.Keys|
  {
  }

  lemma FewerLeft<K, V>(m: map<K, V>, gone: set<K>)
    ensures |Less(m, gone)| <= |m|
  {
    KeysCount(m);
    KeysCount(Less(m, gone));
    assert Less(m, gone).Keys == m.Keys - gone;
  }

  lemma OneLess<V>(m: map<OpenIdentity, V>, x: OpenIdentity)
    ensures |WithoutOpen(m, x)| == if x in m then |m| - 1 else |m|
  {
    KeysCount(m);
    KeysCount(WithoutOpen(m, x));
    assert WithoutOpen(m, x).Keys == m.Keys - {x};
  }

  lemma SameKeys<K, V>(m: map<K, V>, x: K, v: V)
    ensures |m[x := v]| == if x in m then |m| else |m| + 1
  {
    KeysCount(m);
    KeysCount(m[x := v]);
    assert m[x := v].Keys == m.Keys + {x};
  }

  lemma AddsWithin(s: State, x: Step)
    requires Within(s) && AddedBy(s, x).Adds?
    ensures Within(Next(s, x)) && Next(s, x).limits == s.limits
  {
    match x
    case RouteResolved(id, _) => OneLess(s.attempts, id);
    case Answered(key, id) => OneLess(s.attempts, id);
    case _ =>
  }

  lemma SessionWithin(s: State, session: Uuid)
    requires Within(s)
    ensures Within(SessionRemoved(s, session)) && SessionRemoved(s, session).limits == s.limits
  {
    FewerLeft(s.attempts, OwnAttempts(s.attempts, session));
  }

  lemma DialWithin(s: State, p: PipeId, local: Option<Uuid>)
    requires Within(s)
    ensures var n := Otherwise(s, Step.Dial(p, local)); Within(n) && n.limits == s.limits
  {
    if s.gatewayId.Some? {
      var id := OpenIdentity(s.gatewayId.value, p.originSession, p.connectionId);
      SameKeys(s.attempts, id, Attempt(p, Resolving));
    }
  }

  lemma MovedWithin(s: State, id: OpenIdentity, phase: AttemptPhase, opens: map<OpenIdentity, PeerStreamKey>)
    requires Within(s) && id in s.attempts
    ensures Within(s.(attempts := s.attempts[id := s.attempts[id].(phase := phase)], opens := opens))
  {
    SameKeys(s.attempts, id, s.attempts[id].(phase := phase));
  }

  lemma EndWithin(s: State, id: OpenIdentity)
    requires Within(s)
    ensures Within(AttemptEnded(s, id)) && AttemptEnded(s, id).limits == s.limits
  {
    OneLess(s.attempts, id);
  }

  lemma AttemptWithin(s: State, x: Step)
    requires Within(s) && (x.RouteResolved? || x.Committed? || x.Answered? || x.EndAttempt?)
    ensures Within(Otherwise(s, x)) && Otherwise(s, x).limits == s.limits
  {
    EndWithin(s, x.id);
    if x.RouteResolved? && x.id in s.attempts { MovedWithin(s, x.id, StartingPeer, s.opens); }
    if x.Committed? && x.id in s.attempts { MovedWithin(s, x.id, AwaitingPeer(x.key), s.opens[x.id := x.key]); }
  }

  lemma OneWithin(s: State, x: Step)
    requires Within(s) && (x.Accept? || x.RemovePipe?)
    ensures Within(Otherwise(s, x)) && Otherwise(s, x).limits == s.limits
  {
  }

  lemma NothingWithin(s: State, x: Step)
    requires Within(s)
    requires x.AddSession? || x.Prepare? || x.Forgo? || x.ReceiveOpen? || x.Drain?
    ensures Within(Otherwise(s, x)) && Otherwise(s, x).limits == s.limits
  {
  }

  lemma OtherwiseWithin(s: State, x: Step)
    requires Within(s)
    ensures Within(Otherwise(s, x)) && Otherwise(s, x).limits == s.limits
  {
    if x.RemoveSession? { SessionWithin(s, x.session); }
    else if x.Dial? { DialWithin(s, x.pipe, x.local); }
    else if x.RouteResolved? || x.Committed? || x.Answered? || x.EndAttempt? { AttemptWithin(s, x); }
    else if x.Accept? || x.RemovePipe? { OneWithin(s, x); }
    else { NothingWithin(s, x); }
  }

  /** No event, conforming or not, takes the Gateway past a limit. */
  lemma NextWithin(s: State, x: Step)
    requires Within(s)
    ensures Within(Next(s, x)) && Next(s, x).limits == s.limits
  {
    if AddedBy(s, x).Adds? { AddsWithin(s, x); } else { OtherwiseWithin(s, x); }
  }

  /** In every run live Pipes, work under way and attempts stay within their limits. */
  lemma {:induction false} LimitsKept(s: State, run: seq<Step>)
    requires Within(s)
    ensures Within(GatewayRuns.After(s, run))
    decreases |run|
  {
    if run != [] {
      NextWithin(s, run[0]);
      LimitsKept(Next(s, run[0]), run[1..]);
    }
  }

  lemma NewGatewayWithin(gatewayId: Option<Uuid>, limits: Limits, run: seq<Step>)
    ensures Within(GatewayRuns.After(NewState(gatewayId, limits), run))
  {
    LimitsKept(NewState(gatewayId, limits), run);
  }

  // ------------------------------------------------------------------- draining

  /** What is under way now was under way then. */
  ghost predicate Finishing(was: State, s: State) {
    && s.draining && s.authorizing <= was.authorizing
    && (forall id :: id in s.attempts ==> id in was.attempts && s.attempts[id].pipeId == was.attempts[id].pipeId)
    && (forall p :: p in s.pipes ==> p in was.pipes || exists id :: id in was.attempts && was.attempts[id].pipeId == p)
  }

  lemma AddsFinishing(s: State, x: Step)
    requires s.draining && AddedBy(s, x).Adds?
    ensures Finishing(s, Next(s, x))
  {
    assert x.RouteResolved? || x.Answered?;
    assert s.attempts[x.id].pipeId == AddedBy(s, x).pipe;
  }

  lemma OtherwiseFinishing(s: State, x: Step)
    requires s.draining
    ensures Finishing(s, Otherwise(s, x))
  {
    forall p | p in Otherwise(s, x).pipes ensures p in s.pipes { GatewayRuns.OtherwiseAddsNone(s, x, p); }
  }

  lemma NextFinishing(s: State, x: Step)
    requires s.draining
    ensures Finishing(s, Next(s, x))
  {
    if AddedBy(s, x).Adds? { AddsFinishing(s, x); } else { OtherwiseFinishing(s, x); }
  }

  lemma FinishingOn(a: State, b: State, c: State)
    requires Finishing(a, b) && Finishing(b, c)
    ensures Finishing(a, c)
  {
    forall p | p in c.pipes
      ensures p in a.pipes || exists id :: id in a.attempts && a.attempts[id].pipeId == p
    {
      if p !in b.pipes {
        var id :| id in b.attempts && b.attempts[id].pipeId == p;
        assert a.attempts[id].pipeId == p;
      }
    }
  }

  /** A draining Gateway only finishes: in every run each DIAL, attempt and Pipe is one it had, or an attempt's Pipe. */
  lemma {:induction false} DrainingOnlyFinishes(s: State, run: seq<Step>)
    requires s.draining
    ensures Finishing(s, GatewayRuns.After(s, run))
    decreases |run|
  {
    if run != [] {
      var n := Next(s, run[0]);
      NextFinishing(s, run[0]);
      DrainingOnlyFinishes(n, run[1..]);
      FinishingOn(s, n, GatewayRuns.After(n, run[1..]));
    }
  }
}
