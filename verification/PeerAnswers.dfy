/**
 What each command and each OPEN is answered with, in the caller's terms: which
 condition leads to which answer, and what that answer leaves behind.
 */
module PeerAnswers {
  import opened Common
  import opened ErrorCodes
  import opened PeerFrames
  import opened PeerActor
  import opened PeerLifecycle
  import opened PeerRuns
  import opened PeerGrammar

  // ------------------------------------------------------------------- opening

  /** An OPEN succeeds exactly when there is room for a stream, an identifier and a frame. */
  lemma OpenAnswered(a: Actor)
    ensures OpenReplyFor(a).OpenDone? <==>
            && |a.streams| < a.config.maxStreams && a.nextCounter <= MAX_COUNTER
            && !a.writerClosed && |a.writer| < a.config.writerCapacity
    ensures OpenReplyFor(a).OpenDone? ==>
              Counter(OpenReplyFor(a).s) == a.nextCounter && Initiator(OpenReplyFor(a).s) == a.local
    ensures OpenReplyFor(a).OpenRefused? ==>
              && OpenReplyFor(a).failure.observation == NotObserved
              && OpenReplyFor(a).failure.code ==
                 if |a.streams| < a.config.maxStreams && a.nextCounter <= MAX_COUNTER && a.writerClosed
                 then Unavailable else ResourceExhausted
  {
  }

  /** ... and then commits the request to the writer and waits for the answer until the timeout. */
  lemma OpenCommits(a: Actor, q: OpenRequest, now: Instant)
    ensures var b := OpenStream(a, q, now);
            match OpenReplyFor(a)
            case OpenDone(s) =>
              && b.writer == a.writer + [Open(s, q.openIdentity, q.destination, q.relaySessionId, q.bindingId)]
              && b.streams == a.streams[s := Stream(Relay(Opening, q.openIdentity, false, false), [], false,
                                                    AfterOpenCommit, Local, Some(now + a.config.openResponseTimeout))]
            case OpenRefused(_) => b.writer == a.writer && b.streams == a.streams
  {
  }

  /** Everything the guards ask of an OPEN from the other side. */
  predicate Admissible(a: Actor, s: StreamId, id: OpenIdentity) {
    && Initiator(s) == a.local.Opposite() && (a.highest.Some? ==> a.highest.value < Counter(s))
    && id.entryGateway == a.peerGateway && |a.streams| < a.config.maxStreams && id !in a.activeOpens
  }

  /** Which guard an OPEN fails first. */
  function Objection(a: Actor, s: StreamId, id: OpenIdentity): ErrorCode {
    if Initiator(s) == a.local || (a.highest.Some? && Counter(s) <= a.highest.value) then ProtocolError
    else if id.entryGateway != a.peerGateway then PermissionDenied
    else if |a.streams| >= a.config.maxStreams then ResourceExhausted
    else AlreadyExists
  }

  lemma RemoteOpenAdmitted(a: Actor, s: StreamId, q: OpenRequest)
    requires Admissible(a, s, q.openIdentity)
    ensures var b := HandleFrame(a, Open(s, q.openIdentity, q.destination, q.relaySessionId, q.bindingId));
            && b.streams == a.streams[s := Stream(Relay(Opening, q.openIdentity, false, false), [], false,
                                                  AfterOpenCommit, Remote, None)]
            && b.activeOpens == a.activeOpens + {q.openIdentity} && b.highest == Some(Counter(s))
            && b.writer == a.writer && b.failure == a.failure && b.streamCount == a.streamCount + 1
  {
  }

  /** An OPEN that is not admitted is answered FAILED, not observed, with the code of the guard it failed. */
  lemma RemoteOpenDeclined(a: Actor, s: StreamId, q: OpenRequest)
    requires !Admissible(a, s, q.openIdentity)
    ensures var b := HandleFrame(a, Open(s, q.openIdentity, q.destination, q.relaySessionId, q.bindingId));
            && b.streams == a.streams && b.activeOpens == a.activeOpens && b.streamCount == a.streamCount
            && if a.writerClosed || |a.writer| >= a.config.writerCapacity
               then b.writer == a.writer && b.failure.Some?
               else
                 && |b.writer| == |a.writer| + 1 && b.writer[..|a.writer|] == a.writer && b.failure == a.failure
                 && b.writer[|a.writer|].Failed? && b.writer[|a.writer|].streamId == s
                 && b.writer[|a.writer|].code == Objection(a, s, q.openIdentity)
                 && b.writer[|a.writer|].observation == NotObserved
  {
  }

  /** A PING is answered with its own nonce. */
  lemma PingAnswered(a: Actor, nonce: U64)
    ensures var b := HandleFrame(a, Ping(nonce));
            if a.writerClosed || |a.writer| >= a.config.writerCapacity
            then b.writer == a.writer && b.failure.Some? && FrameEndsLoop(a, Ping(nonce))
            else b == a.(writer := a.writer + [Pong(nonce)]) && !FrameEndsLoop(a, Ping(nonce))
  {
  }

  // ------------------------------------------------------------------ commands

  predicate HasRoom(c: Config, st: Stream) { |st.queue| < c.streamQueueCapacity }

  /** The stream is as it was, and the caller is told why. */
  predicate Rejected(st: Stream, e: Effect, code: ErrorCode) {
    && e.next == Some(st) && e.notes == [] && e.reply.Refused?
    && e.reply.failure.code == code && e.reply.failure.observation == MaybeObserved
  }

  /** `f` is queued and the caller told so. */
  predicate TakenUp(st: Stream, e: Effect, f: PeerFrame, terminal: bool) {
    && e.next.Some? && e.next.value.queue == st.queue + [f] && e.next.value.terminalQueued == terminal
    && e.next.value.origin == st.origin && e.next.value.relay.owner == st.relay.owner
    && e.reply == Done && !e.failed
  }

  predicate Ignored(st: Stream, e: Effect) { e == Effect(Some(st), [], false, Done) }

  lemma DataAnswered(c: Config, local: Endpoint, s: StreamId, st: Stream, payload: Bytes)
    ensures var e := CommandOn(c, local, s, st, CmdData(payload));
            if st.relay.phase != Streaming || st.relay.Finished(local) || st.terminalQueued
            then Rejected(st, e, FailedPrecondition) && !e.failed
            else if !HasRoom(c, st) then Rejected(st, e, ResourceExhausted) && !e.failed
            else TakenUp(st, e, Data(s, payload), false) && e.notes == [Accepted(payload)]
                 && e.next.value.relay == st.relay && e.next.value.progress == st.progress
  {
  }

  /** FIN ends this side's sending, and the stream if the other side's has ended. */
  lemma FinAnswered(c: Config, local: Endpoint, s: StreamId, st: Stream)
    requires PhaseOk(local, s, st)
    ensures var e := CommandOn(c, local, s, st, CmdFin);
            if st.terminalQueued then Ignored(st, e)
            else if st.relay.phase == Opening then Rejected(st, e, FailedPrecondition) && !e.failed
            else if st.relay.Finished(local) then Ignored(st, e)
            else if !HasRoom(c, st) then Rejected(st, e, ResourceExhausted) && !e.failed
            else
              && TakenUp(st, e, Fin(s), st.relay.Finished(local.Opposite())) && e.notes == []
              && e.next.value.relay.Finished(local)
              && e.next.value.relay.Finished(local.Opposite()) == st.relay.Finished(local.Opposite())
  {
  }

  lemma ResetAnswered(c: Config, local: Endpoint, s: StreamId, st: Stream, code: ErrorCode, message: Bytes)
    ensures var e := CommandOn(c, local, s, st, CmdReset(code, message));
            if st.terminalQueued then Ignored(st, e)
            else if !HasRoom(c, st) then Rejected(st, e, ResourceExhausted) && e.failed
            else TakenUp(st, e, Reset(s, code, message), true) && e.notes == [] && e.next.value.relay == st.relay
                 && e.next.value.deadline.None?
  {
  }

  /** CLOSE before the stream is open is a reset. */
  lemma CloseAnswered(c: Config, local: Endpoint, s: StreamId, st: Stream)
    ensures var e := CommandOn(c, local, s, st, CmdClose);
            if st.terminalQueued then Ignored(st, e)
            else if !HasRoom(c, st) then Rejected(st, e, ResourceExhausted) && e.failed
            else
              && e.notes == [] && e.next.Some? && e.next.value.relay == st.relay
              && if st.relay.phase == Streaming then TakenUp(st, e, Close(s), true)
                 else TakenUp(st, e, Reset(s, ProtocolError, c.text(CloseBeforeOpened)), true)
  {
  }

  /** OPENED answers an OPEN of the other side, once. */
  lemma OpenedAnswered(c: Config, local: Endpoint, s: StreamId, st: Stream)
    requires PhaseOk(local, s, st)
    ensures var e := CommandOn(c, local, s, st, CmdOpened);
            if st.terminalQueued then Ignored(st, e)
            else if Initiator(s) == local then Rejected(st, e, FailedPrecondition) && !e.failed
            else if st.relay.phase != Opening then Ignored(st, e)
            else if !HasRoom(c, st) then Rejected(st, e, ResourceExhausted) && !e.failed
            else
              && TakenUp(st, e, Opened(s), false) && e.notes == []
              && e.next.value.relay == st.relay.(phase := Streaming) && e.next.value.progress == ProgressOpened
  {
  }

  /** FAILED answers an OPEN of the other side that was not answered yet. */
  lemma FailedAnswered(c: Config, local: Endpoint, s: StreamId, st: Stream, failure: PeerFailure)
    requires PhaseOk(local, s, st)
    ensures var e := CommandOn(c, local, s, st, CmdFailed(failure));
            if st.terminalQueued then Ignored(st, e)
            else if Initiator(s) == local || st.relay.phase != Opening
            then Rejected(st, e, FailedPrecondition) && !e.failed
            else if !HasRoom(c, st) then Rejected(st, e, ResourceExhausted) && e.failed
            else TakenUp(st, e, Failed(s, failure.code, failure.observation, failure.message), true) && e.notes == []
  {
  }

  lemma CancelNobody(a: Actor, id: OpenIdentity)
    requires forall s :: s in a.streams ==> a.streams[s].relay.owner != id
    ensures Next(a, DoCancel(id)) == a
  {
    assert OwnedBy(a, id) == {};
  }

  lemma CancelApplies(a: Actor, id: OpenIdentity, t: StreamId)
    requires Inv(a) && t in a.streams && a.streams[t].relay.owner == id
    ensures var reset := CmdReset(Cancelled, a.config.text(OpenCancelled));
            Next(a, DoCancel(id)).streams ==
            Apply(a, t, CommandOn(a.config, a.local, t, a.streams[t], reset)).streams
  {
    assert t in OwnedBy(a, id);
    var least: StreamId := Least(OwnedBy(a, id));
    assert least in OwnedBy(a, id);
    assert least == t;
  }

  lemma ApplyMoves(a: Actor, t: StreamId, e: Effect)
    requires t in a.streams && e.next.Some?
    ensures Apply(a, t, e).streams == a.streams[t := e.next.value]
  {
  }

  /** Cancelling an OPEN resets the stream of that identity, if it has not ended, and leaves all others alone. */
  lemma CancelResetsItsOwn(a: Actor, id: OpenIdentity, s: StreamId)
    requires Inv(a) && s in a.streams
    ensures var b := Next(a, DoCancel(id));
            && s in b.streams
            && if a.streams[s].relay.owner != id || a.streams[s].terminalQueued || !HasRoom(a.config, a.streams[s])
               then b.streams[s] == a.streams[s]
               else
                 && b.streams[s].queue == a.streams[s].queue + [Reset(s, Cancelled, a.config.text(OpenCancelled))]
                 && b.streams[s].terminalQueued
  {
    if exists t: StreamId :: t in a.streams && a.streams[t].relay.owner == id {
      var t: StreamId :| t in a.streams && a.streams[t].relay.owner == id;
      var message := a.config.text(OpenCancelled);
      CancelApplies(a, id, t);
      ResetAnswered(a.config, a.local, t, a.streams[t], Cancelled, message);
      ApplyMoves(a, t, CommandOn(a.config, a.local, t, a.streams[t], CmdReset(Cancelled, message)));
      if a.streams[s].relay.owner == id { OneOwner(a, s, t); }
    } else {
      CancelNobody(a, id);
    }
  }

  lemma OneOwner(a: Actor, s: StreamId, t: StreamId)
    requires Inv(a) && s in a.streams && t in a.streams && a.streams[s].relay.owner == a.streams[t].relay.owner
    ensures s == t
  {
  }

  /** A lost stream is reported under its owner, as opened exactly if it was. */
  lemma LossTells(a: Actor, s: StreamId)
    requires Inv(a) && s in a.streams
    ensures var st := a.streams[s];
            var lost := StreamLost(st.relay.owner,
                                   if st.relay.phase == Opening then AfterOpenCommit else ProgressOpened);
            Next(a, DoDrop(s)).history == a.history + [On(s, lost)]
  {
    assert StreamOk(a.local, a.config.streamQueueCapacity, s, a.streams[s]);
  }

  // -------------------------------------------------------------------- frames

  /** The frame broke the protocol: the stream is reset for it, or the transport fails for want of room. */
  predicate Violation(c: Config, s: StreamId, st: Stream, e: Effect) {
    && ProtocolReset in e.notes && e.next.Some?
    && if HasRoom(c, st)
       then e.next.value.terminalQueued && |e.next.value.queue| == |st.queue| + 1
            && e.next.value.queue[|st.queue|].Reset? && e.next.value.queue[|st.queue|].code == ProtocolError
       else e.failed && e.next == Some(st)
  }

  /** The stream leaves, and this is what is reported of it. */
  predicate LeavesWith(st: Stream, e: Effect, event: PeerEvent) {
    e == Effect(None, [Emitted(event), StreamEnded(st.relay.owner)], false, Done)
  }

  predicate ReportsOnly(e: Effect, next: Stream, event: PeerEvent) {
    e == Effect(Some(next), [Emitted(event)], false, Done)
  }

  lemma OpenedReceived(c: Config, local: Endpoint, s: StreamId, st: Stream)
    requires PhaseOk(local, s, st) && !st.terminalQueued
    ensures var e := InboundOn(c, local, s, st, Opened(s));
            if Initiator(s) != local then Violation(c, s, st, e)
            else if st.relay.phase != Opening then Ignored(st, e)
            else
              var next := st.(relay := st.relay.(phase := Streaming), progress := ProgressOpened, deadline := None);
              ReportsOnly(e, next, OpenedEvent(st.relay.owner))
  {
  }

  lemma FailedReceived(c: Config, local: Endpoint, s: StreamId, st: Stream, failure: PeerFailure)
    requires PhaseOk(local, s, st) && !st.terminalQueued
    ensures var e := InboundOn(c, local, s, st, Failed(s, failure.code, failure.observation, failure.message));
            if Initiator(s) != local || st.relay.phase != Opening then Violation(c, s, st, e)
            else LeavesWith(st, e, FailedEvent(st.relay.owner, failure))
  {
  }

  lemma DataReceived(c: Config, local: Endpoint, s: StreamId, st: Stream, payload: Bytes)
    requires PhaseOk(local, s, st) && !st.terminalQueued
    ensures var e := InboundOn(c, local, s, st, Data(s, payload));
            if st.relay.phase != Streaming || st.relay.Finished(local.Opposite()) then Violation(c, s, st, e)
            else ReportsOnly(e, st, DataEvent(payload))
  {
  }

  /** The first FIN is reported; the stream leaves with it if this side has finished and nothing is queued. */
  lemma FinReceived(c: Config, local: Endpoint, s: StreamId, st: Stream)
    requires PhaseOk(local, s, st) && !st.terminalQueued
    ensures var e := InboundOn(c, local, s, st, Fin(s));
            if st.relay.phase != Streaming then Violation(c, s, st, e)
            else if st.relay.Finished(local.Opposite()) then Ignored(st, e)
            else if st.relay.Finished(local) && st.queue == [] then LeavesWith(st, e, FinEvent)
            else
              && e.next.Some? && ReportsOnly(e, e.next.value, FinEvent) && e.next.value.queue == st.queue
              && e.next.value.relay.Finished(local.Opposite())
              && e.next.value.relay.Finished(local) == st.relay.Finished(local)
              && e.next.value.terminalQueued == st.relay.Finished(local)
  {
  }

  lemma CloseReceived(c: Config, local: Endpoint, s: StreamId, st: Stream)
    requires PhaseOk(local, s, st) && !st.terminalQueued
    ensures var e := InboundOn(c, local, s, st, Close(s));
            if st.relay.phase != Streaming then Violation(c, s, st, e) else LeavesWith(st, e, CloseEvent)
  {
  }

  /** A RESET always ends the stream: as a failed OPEN if this side asked and had no answer, as a reset otherwise. */
  lemma ResetReceived(c: Config, local: Endpoint, s: StreamId, st: Stream, code: ErrorCode, message: Bytes)
    requires PhaseOk(local, s, st) && !st.terminalQueued
    ensures LeavesWith(st, InboundOn(c, local, s, st, Reset(s, code, message)),
                       if Initiator(s) == local && st.relay.phase == Opening
                       then FailedEvent(st.relay.owner, PeerFailure(code, MaybeObserved, message))
                       else ResetEvent(code, message))
  {
  }

  /** Once a stream's last frame is queued, nothing that arrives changes it. */
  lemma OverIsOver(c: Config, local: Endpoint, s: StreamId, st: Stream, f: PeerFrame)
    requires st.terminalQueued
    ensures Ignored(st, InboundOn(c, local, s, st, f))
  {
  }

  // -------------------------------------------------------------------- limits

  /** Streams, queues and the writer stay within their limits. */
  ghost predicate WithinLimits(a: Actor) {
    && |a.streams| <= a.config.maxStreams && |a.writer| <= a.config.writerCapacity
    && forall s :: s in a.streams ==> |a.streams[s].queue| <= a.config.streamQueueCapacity
  }

  lemma ApplyLimits(a: Actor, s: StreamId, e: Effect)
    requires s in a.streams
    ensures |Apply(a, s, e).streams| <= |a.streams| && Apply(a, s, e).writer == a.writer
    ensures Apply(a, s, e).config == a.config
  {
    InsertCount(a.streams, s, a.streams[s]);
    if e.next.Some? { InsertCount(a.streams, s, e.next.value); } else { RemoveCount(a.streams, s); }
  }

  lemma OneStreamLimits(a: Actor, x: Action)
    requires x.DoCancel? || x.DoStream? || x.DoExpire? || x.DoRetire? || x.DoDrop? || x.DoPump?
    requires |a.streams| <= a.config.maxStreams && |a.writer| <= a.config.writerCapacity
    ensures |Next(a, x).streams| <= a.config.maxStreams && |Next(a, x).writer| <= a.config.writerCapacity
  {
    if Next(a, x) == a { }
    else if x.DoCancel? {
      var s: StreamId := Least(OwnedBy(a, x.identity));
      var reset := CmdReset(Cancelled, a.config.text(OpenCancelled));
      ApplyLimits(a, s, CommandOn(a.config, a.local, s, a.streams[s], reset));
    } else if x.DoPump? {
      var st := a.streams[x.s];
      ApplyLimits(a, x.s, Keep(st.(queue := st.queue[1..])).(failed := WriterVerdict(a) == Closed));
    } else if x.DoRetire? {
      ApplyLimits(a, x.s, Leave(a.streams[x.s], []));
    } else {
      ApplyLimits(a, x.s, StreamEffect(a, x.s, x));
    }
  }

  lemma OpenLimits(a: Actor, q: OpenRequest, now: Instant)
    requires |a.streams| <= a.config.maxStreams && |a.writer| <= a.config.writerCapacity
    ensures var b := OpenStream(a, q, now);
            |b.streams| <= a.config.maxStreams && |b.writer| <= a.config.writerCapacity
  {
    if OpenReplyFor(a).OpenDone? {
      InsertCount(a.streams, OpenReplyFor(a).s,
                  OpeningStream(q.openIdentity, Local, Some(now + a.config.openResponseTimeout)));
    }
  }

  lemma FrameLimits(a: Actor, f: PeerFrame)
    requires |a.streams| <= a.config.maxStreams && |a.writer| <= a.config.writerCapacity
    ensures var b := HandleFrame(a, f);
            |b.streams| <= a.config.maxStreams && |b.writer| <= a.config.writerCapacity
  {
    if f.Open? {
      var q := OpenRequest(f.openIdentity, f.destination, f.relaySessionId, f.bindingId);
      InsertCount(a.streams, f.streamId, OpeningStream(f.openIdentity, Remote, None));
      if Admissible(a, f.streamId, f.openIdentity) { RemoteOpenAdmitted(a, f.streamId, q); }
      else { RemoteOpenDeclined(a, f.streamId, q); }
    } else if f.Ping? {
      PingAnswered(a, f.nonce);
    } else if !f.ForTransport() && f.streamId in a.streams {
      ApplyLimits(a, f.streamId, InboundOn(a.config, a.local, f.streamId, a.streams[f.streamId], f));
    }
  }

  lemma NextLimits(a: Actor, x: Action)
    requires Enabled(a, x) && |a.streams| <= a.config.maxStreams && |a.writer| <= a.config.writerCapacity
    ensures |Next(a, x).streams| <= a.config.maxStreams && |Next(a, x).writer| <= a.config.writerCapacity
  {
    match x
    case DoOpen(q, now) => OpenLimits(a, q, now);
    case DoReceive(f) => FrameLimits(a, f);
    case DoPing(_) =>
    case DoFail(_) =>
    case DoReserve(_) =>
    case DoRelease(_) =>
    case DoTransmit =>
    case DoCloseWriter =>
    case _ => OneStreamLimits(a, x);
  }

  lemma {:induction false} RunLimits(a: Actor, run: seq<Action>)
    requires Inv(a) && Possible(a, run) && |a.streams| <= a.config.maxStreams && |a.writer| <= a.config.writerCapacity
    ensures WithinLimits(After(a, run))
    decreases |run|
  {
    if run == [] {
      assert StreamsOk(a.local, a.config.streamQueueCapacity, a.streams);
    } else {
      NextInv(a, run[0]);
      NextLimits(a, run[0]);
      NextKeepsEndpoint(a, run[0]);
      RunLimits(Next(a, run[0]), run[1..]);
    }
  }

  /** No run of a transport exceeds its limits. */
  lemma LimitsHold(config: Config, peer: Uuid, local: Endpoint, active: set<OpenIdentity>, run: seq<Action>)
    requires Possible(NewActor(config, peer, local, active), run)
    ensures WithinLimits(After(NewActor(config, peer, local, active), run))
  {
    StartInv(config, peer, local, active);
    RunLimits(NewActor(config, peer, local, active), run);
  }
}
