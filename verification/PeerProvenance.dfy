/**
 Where everything comes from: in every run of two connected actors, each frame
 was said by a command, deadline or frame at the end that sent it, and each event
 reports what the other end said, field by field.
 */
module PeerProvenance {
  import opened Common
  import opened ErrorCodes
  import opened PeerFrames
  import opened PeerActor
  import opened PeerLifecycle
  import opened PeerRuns
  import opened PeerGrammar
  import opened PeerNetwork
  import opened PeerDelivery

  // ---------------------------------------------------------- what deeds say

  /** An action at one end; for an OPEN, the stream it was answered with; for a frame, if it broke the protocol. */
  datatype Deed = Deed(action: Action, stream: Option<StreamId>, broke: bool)

  function DeedOf(a: Actor, x: Action): Deed {
    Deed(x, if x.DoOpen? && OpenReplyFor(a).OpenDone? then Some(OpenReplyFor(a).s) else None,
         x.DoReceive? && Breaks(a, x.frame))
  }

  predicate Breaks(a: Actor, f: PeerFrame) {
    && !f.ForTransport() && !f.Open? && f.streamId in a.streams
    && ProtocolReset in InboundOn(a.config, a.local, f.streamId, a.streams[f.streamId], f).notes
  }

  /** The frames a stream command stands for. */
  predicate Utters(c: Config, s: StreamId, x: StreamCommand, f: PeerFrame) {
    match x
    case CmdOpened => f == Opened(s)
    case CmdFailed(failure) => f == Failed(s, failure.code, failure.observation, failure.message)
    case CmdData(payload) => f == Data(s, payload)
    case CmdFin => f == Fin(s)
    case CmdClose => f == Close(s) || f == Reset(s, ProtocolError, c.text(CloseBeforeOpened))
    case CmdReset(code, message) => f == Reset(s, code, message)
  }

  /** The answers to an OPEN that is not admitted. */
  predicate Declines(c: Config, s: StreamId, f: PeerFrame) {
    || f == Failed(s, ProtocolError, NotObserved, c.text(StreamIdRefused))
    || f == Failed(s, PermissionDenied, NotObserved, c.text(EntryGatewayMismatch))
    || f == Failed(s, ResourceExhausted, NotObserved, c.text(StreamLimitReached))
    || f == Failed(s, AlreadyExists, NotObserved, c.text(IdentityActive))
  }

  predicate Says(c: Config, d: Deed, f: PeerFrame) {
    match d.action
    case DoOpen(q, _) =>
      d.stream.Some? && f == Open(d.stream.value, q.openIdentity, q.destination, q.relaySessionId, q.bindingId)
    case DoStream(s, x) => Utters(c, s, x, f)
    case DoCancel(_) => f.Reset? && f.code == Cancelled && f.message == c.text(OpenCancelled)
    case DoExpire(s, _) => f == Reset(s, DeadlineExceeded, c.text(OpenTimedOut))
    case DoPing(nonce) => f == Ping(nonce)
    case DoReceive(g) =>
      if g.Ping? then f == Pong(g.nonce)
      else if g.Open? then Declines(c, g.streamId, f)
      else d.broke && !g.ForTransport() && f.Reset? && f.streamId == g.streamId && f.code == ProtocolError
    case _ => false
  }

  ghost predicate Said(c: Config, ds: seq<Deed>, f: PeerFrame) {
    exists i :: 0 <= i < |ds| && Says(c, ds[i], f)
  }

  lemma SaidStill(c: Config, ds: seq<Deed>, d: Deed, f: PeerFrame)
    ensures Said(c, ds, f) || Says(c, d, f) ==> Said(c, ds + [d], f)
  {
    if Said(c, ds, f) {
      var i :| 0 <= i < |ds| && Says(c, ds[i], f);
      assert Says(c, (ds + [d])[i], f);
    } else if Says(c, d, f) {
      assert Says(c, (ds + [d])[|ds|], f);
    }
  }

  // ------------------------------------------------------- what events report

  /** The event is what `f` says. */
  predicate Reports(s: StreamId, f: PeerFrame, e: PeerEvent) {
    match e
    case IncomingOpen(id, destination, session, binding) => f == Open(s, id, destination, session, binding)
    case OpenedEvent(_) => f == Opened(s)
    case FailedEvent(_, failure) =>
      || f == Failed(s, failure.code, failure.observation, failure.message)
      || (failure.observation == MaybeObserved && f == Reset(s, failure.code, failure.message))
    case DataEvent(payload) => f == Data(s, payload)
    case FinEvent => f == Fin(s)
    case CloseEvent => f == Close(s)
    case ResetEvent(code, message) => f == Reset(s, code, message)
  }

  /** The OPEN of this end that was answered with stream `s` had identity `id`. */
  ghost predicate Requested(ds: seq<Deed>, s: StreamId, id: OpenIdentity) {
    exists i :: 0 <= i < |ds| && ds[i].stream == Some(s) && ds[i].action.DoOpen?
                && ds[i].action.request.openIdentity == id
  }

  function TimedOut(c: Config): PeerFailure { PeerFailure(DeadlineExceeded, MaybeObserved, c.text(OpenTimedOut)) }

  predicate IsExpiry(d: Deed, s: StreamId) { d.action.DoExpire? && d.action.s == s }

  ghost predicate Expired(ds: seq<Deed>, s: StreamId) { exists i :: 0 <= i < |ds| && IsExpiry(ds[i], s) }

  ghost predicate Heard(c: Config, other: seq<Deed>, s: StreamId, e: PeerEvent) {
    exists f :: Said(c, other, f) && Reports(s, f, e)
  }

  /** An event reports what the other end said, or a deadline of this end; an identity is the one asked for. */
  ghost predicate Explained(c: Config, mine: seq<Deed>, peer: Config, other: seq<Deed>, s: StreamId, e: PeerEvent) {
    && (Heard(peer, other, s, e) || (e.FailedEvent? && e.failure == TimedOut(c) && Expired(mine, s)))
    && (e.OpenedEvent? || e.FailedEvent? ==> Requested(mine, s, e.openIdentity))
  }

  lemma ExplainedStill(c: Config, mine: seq<Deed>, peer: Config, other: seq<Deed>, s: StreamId, e: PeerEvent, d: Deed)
    requires Explained(c, mine, peer, other, s, e)
    ensures Explained(c, mine + [d], peer, other, s, e) && Explained(c, mine, peer, other + [d], s, e)
  {
    if Heard(peer, other, s, e) {
      var f :| Said(peer, other, f) && Reports(s, f, e);
      SaidStill(peer, other, d, f);
    } else {
      var i :| 0 <= i < |mine| && IsExpiry(mine[i], s);
      assert IsExpiry((mine + [d])[i], s);
    }
    if e.OpenedEvent? || e.FailedEvent? { RequestedStill(mine, s, e.openIdentity, d); }
  }

  lemma RequestedStill(ds: seq<Deed>, s: StreamId, id: OpenIdentity, d: Deed)
    requires Requested(ds, s, id)
    ensures Requested(ds + [d], s, id)
  {
    var i :| 0 <= i < |ds| && ds[i].stream == Some(s) && ds[i].action.DoOpen?
             && ds[i].action.request.openIdentity == id;
    assert (ds + [d])[i] == ds[i];
  }

  // --------------------------------------------------- what one action may add

  /** The queue stays, loses its head, or gains one frame that the deed says. */
  predicate QueueStep(c: Config, d: Deed, q: seq<PeerFrame>, r: seq<PeerFrame>) {
    || r == q
    || (q != [] && r == q[1..])
    || (|r| == |q| + 1 && r[..|q|] == q && Says(c, d, r[|q|]))
  }

  /** A new event reports the frame just received, or the deadline just passed; or the frame broke the protocol. */
  predicate EventStep(c: Config, d: Deed, s: StreamId, st: Stream, notes: seq<Note>, e: PeerEvent) {
    && ((d.action.DoReceive? && Reports(s, d.action.frame, e))
        || (e.FailedEvent? && e.failure == TimedOut(c) && IsExpiry(d, s))
        || ProtocolReset in notes)
    && (e.OpenedEvent? || e.FailedEvent? ==> st.origin == Local && e.openIdentity == st.relay.owner)
  }

  predicate StreamStep(c: Config, d: Deed, st: Stream, next: Stream) {
    QueueStep(c, d, st.queue, next.queue) && next.relay.owner == st.relay.owner && next.origin == st.origin
  }

  ghost predicate EffectStep(c: Config, d: Deed, s: StreamId, st: Stream, e: Effect) {
    && (e.next.Some? ==> StreamStep(c, d, st, e.next.value))
    && forall i :: 0 <= i < |e.notes| && e.notes[i].Emitted? ==> EventStep(c, d, s, st, e.notes, e.notes[i].event)
  }

  lemma CommandSays(c: Config, local: Endpoint, s: StreamId, st: Stream, x: StreamCommand, d: Deed)
    requires forall f :: Utters(c, s, x, f) ==> Says(c, d, f)
    ensures EffectStep(c, d, s, st, CommandOn(c, local, s, st, x))
  {
    match x
    case CmdOpened => assert Utters(c, s, x, Opened(s));
    case CmdFailed(failure) =>
      assert Utters(c, s, x, Failed(s, failure.code, failure.observation, failure.message));
    case CmdData(payload) => assert Utters(c, s, x, Data(s, payload));
    case CmdFin => assert Utters(c, s, x, Fin(s));
    case CmdClose =>
      assert Utters(c, s, x, Close(s)) && Utters(c, s, x, Reset(s, ProtocolError, c.text(CloseBeforeOpened)));
    case CmdReset(code, message) => assert Utters(c, s, x, Reset(s, code, message));
  }

  /** The deed of receiving `f`, which breaks the protocol if the effect says so. */
  predicate Receives(d: Deed, s: StreamId, f: PeerFrame, e: Effect) {
    && d.action == DoReceive(f) && f.OnStream(s) && !f.Open? && d.stream.None?
    && (ProtocolReset in e.notes ==> d.broke)
  }

  lemma BreakSays(c: Config, s: StreamId, st: Stream, f: PeerFrame, x: Diagnostic, d: Deed)
    ensures Receives(d, s, f, BreakProtocol(c, s, st, x)) ==> EffectStep(c, d, s, st, BreakProtocol(c, s, st, x))
  {
    assert BreakProtocol(c, s, st, x).notes[0] == ProtocolReset;
    if Receives(d, s, f, BreakProtocol(c, s, st, x)) { assert Says(c, d, Reset(s, ProtocolError, c.text(x))); }
  }

  lemma AnswerSays(c: Config, s: StreamId, st: Stream, f: PeerFrame, e: Effect, d: Deed)
    requires Receives(d, s, f, e)
    requires (f.Opened? && e == ReceiveOpened(c, s, st))
             || (f.Failed? && e == ReceiveFailed(c, s, st, PeerFailure(f.code, f.observation, f.message)))
    ensures EffectStep(c, d, s, st, e)
  {
    BreakSays(c, s, st, f, OpenedForRemoteStream, d);
    BreakSays(c, s, st, f, OpenedInvalidPhase, d);
    BreakSays(c, s, st, f, FailedInvalidPhase, d);
  }

  lemma FlowSays(c: Config, local: Endpoint, s: StreamId, st: Stream, f: PeerFrame, e: Effect, d: Deed)
    requires Receives(d, s, f, e)
    requires (f.Data? && e == ReceiveData(c, local, s, st, f.payload)) || (f.Fin? && e == ReceiveFin(c, local, s, st))
    ensures EffectStep(c, d, s, st, e)
  {
    BreakSays(c, s, st, f, DataInvalidPhase, d);
    BreakSays(c, s, st, f, FinInvalidPhase, d);
  }

  lemma EndSays(c: Config, s: StreamId, st: Stream, f: PeerFrame, e: Effect, d: Deed)
    requires Receives(d, s, f, e)
    requires (f.Close? && e == ReceiveClose(c, s, st)) || (f.Reset? && e == ReceiveReset(st, f.code, f.message))
    ensures EffectStep(c, d, s, st, e)
  {
    BreakSays(c, s, st, f, CloseBeforeOpened, d);
  }

  lemma InboundSays(c: Config, local: Endpoint, s: StreamId, st: Stream, f: PeerFrame, d: Deed)
    requires Receives(d, s, f, InboundOn(c, local, s, st, f))
    ensures EffectStep(c, d, s, st, InboundOn(c, local, s, st, f))
  {
    var e := InboundOn(c, local, s, st, f);
    if st.terminalQueued { }
    else if f.Opened? || f.Failed? { AnswerSays(c, s, st, f, e, d); }
    else if f.Data? || f.Fin? { FlowSays(c, local, s, st, f, e, d); }
    else { EndSays(c, s, st, f, e, d); }
  }

  lemma ExpirySays(c: Config, s: StreamId, st: Stream, now: Instant)
    requires st.origin == Local
    ensures EffectStep(c, Deed(DoExpire(s, now), None, false), s, st, ExpireOn(c, s, st))
  {
  }

  // ------------------------------------------------------------- one whole side

  ghost predicate QueuesSaid(a: Actor, ds: seq<Deed>) {
    forall s, i {:trigger a.streams[s].queue[i]} :: s in a.streams && 0 <= i < |a.streams[s].queue| ==>
      Said(a.config, ds, a.streams[s].queue[i])
  }

  ghost predicate AllSaid(c: Config, ds: seq<Deed>, fs: seq<PeerFrame>) {
    forall i :: 0 <= i < |fs| ==> Said(c, ds, fs[i])
  }

  /** Streams opened here belong to the identity they were opened for. */
  ghost predicate OwnersAsked(a: Actor, ds: seq<Deed>) {
    forall s :: s in a.streams && a.streams[s].origin == Local ==> Requested(ds, s, a.streams[s].relay.owner)
  }

  /** No stream answers two OPENs of one end. */
  ghost predicate OpenedOnce(a: Actor, ds: seq<Deed>) {
    && (forall i :: 0 <= i < |ds| && ds[i].stream.Some? ==>
          Initiator(ds[i].stream.value) == a.local && Counter(ds[i].stream.value) < a.nextCounter)
    && (forall i, j :: 0 <= i < j < |ds| && ds[i].stream.Some? ==> ds[i].stream != ds[j].stream)
  }

  predicate Broken(h: seq<Record>, s: StreamId) { On(s, ProtocolReset) in h }

  ghost predicate RecordExplained(a: Actor, mine: seq<Deed>, peer: Config, other: seq<Deed>, r: Record) {
    r.On? && r.note.Emitted? ==> Broken(a.history, r.s) || Explained(a.config, mine, peer, other, r.s, r.note.event)
  }

  ghost predicate EventsExplained(a: Actor, mine: seq<Deed>, peer: Config, other: seq<Deed>) {
    forall i :: 0 <= i < |a.history| ==> RecordExplained(a, mine, peer, other, a.history[i])
  }

  ghost predicate AllBreaksShow(a: Actor, ds: seq<Deed>) { forall i :: 0 <= i < |ds| ==> BrokeShows(a, ds[i]) }

  /** All that is kept of one end. */
  ghost predicate SideSaid(n: Net, e: Endpoint, mine: seq<Deed>, other: seq<Deed>) {
    var a := n.Side(e);
    && QueuesSaid(a, mine) && AllSaid(a.config, mine, n.Handed(e))
    && OwnersAsked(a, mine) && OpenedOnce(a, mine) && AllBreaksShow(a, mine)
    && EventsExplained(a, mine, n.Side(e.Opposite()).config, other)
  }

  // --------------------------------------------------------- one action at a side

  /** What action `d` may do to the streams: none is new but the one it opened or a remote one, with nothing queued. */
  ghost predicate StreamsStep(a: Actor, d: Deed, b: Actor) {
    forall s {:trigger b.streams[s]} :: s in b.streams ==>
      if s in a.streams then StreamStep(a.config, d, a.streams[s], b.streams[s])
      else
        && b.streams[s].queue == []
        && (b.streams[s].origin == Local ==>
              d.stream == Some(s) && d.action.DoOpen? && d.action.request.openIdentity == b.streams[s].relay.owner)
  }

  /** ... to the writer: it loses frames from the front, or gets one that the deed says or that was first in a queue. */
  ghost predicate WriterStep(a: Actor, d: Deed, b: Actor) {
    || b.writer == a.writer || b.writer == []
    || (a.writer != [] && b.writer == a.writer[1..])
    || (|b.writer| == |a.writer| + 1 && b.writer[..|a.writer|] == a.writer
        && (Says(a.config, d, b.writer[|a.writer|]) || QueuedFirst(a, b.writer[|a.writer|])))
  }

  ghost predicate QueuedFirst(a: Actor, f: PeerFrame) {
    exists s :: s in a.streams && a.streams[s].queue != [] && a.streams[s].queue[0] == f
  }

  /** ... to the history: it grows, and every new event is accounted for. */
  ghost predicate HistoryStep(a: Actor, d: Deed, b: Actor) {
    && |a.history| <= |b.history| && b.history[..|a.history|] == a.history
    && forall i :: |a.history| <= i < |b.history| && b.history[i].On? && b.history[i].note.Emitted? ==>
         NewEvent(a, d, b, b.history[i].s, b.history[i].note.event)
  }

  ghost predicate NewEvent(a: Actor, d: Deed, b: Actor, s: StreamId, e: PeerEvent) {
    && ((d.action.DoReceive? && Reports(s, d.action.frame, e))
        || (e.FailedEvent? && e.failure == TimedOut(a.config) && IsExpiry(d, s))
        || Broken(b.history, s))
    && (e.OpenedEvent? || e.FailedEvent? ==>
          s in a.streams && a.streams[s].origin == Local && e.openIdentity == a.streams[s].relay.owner)
  }

  predicate BrokeShows(b: Actor, d: Deed) {
    d.broke ==> d.action.DoReceive? && !d.action.frame.ForTransport() && Broken(b.history, d.action.frame.streamId)
  }

  ghost predicate ActorStep(a: Actor, d: Deed, b: Actor) {
    && b.config == a.config && b.local == a.local
    && StreamsStep(a, d, b) && WriterStep(a, d, b) && HistoryStep(a, d, b) && BrokeShows(b, d)
    && (if d.stream.Some?
        then a.nextCounter <= MAX_COUNTER && d.stream == Some(MakeId(a.local, a.nextCounter))
             && b.nextCounter == a.nextCounter + 1
        else b.nextCounter >= a.nextCounter)
  }

  lemma SameStreams(c: Config, d: Deed, st: Stream)
    ensures StreamStep(c, d, st, st)
  {
  }

  lemma ApplyStreams(a: Actor, s: StreamId, e: Effect, d: Deed)
    requires s in a.streams && (e.next.Some? ==> StreamStep(a.config, d, a.streams[s], e.next.value))
    ensures StreamsStep(a, d, Apply(a, s, e))
  {
    forall t | t in a.streams { SameStreams(a.config, d, a.streams[t]); }
  }

  lemma NotesShow(h: seq<Record>, s: StreamId, notes: seq<Note>)
    ensures ProtocolReset in notes ==> Broken(h + Records(s, notes), s)
  {
    if ProtocolReset in notes {
      var j :| 0 <= j < |notes| && notes[j] == ProtocolReset;
      assert (h + Records(s, notes))[|h| + j] == On(s, ProtocolReset);
    }
  }

  lemma OneNewEvent(a: Actor, s: StreamId, e: Effect, d: Deed, b: Actor, k: nat)
    requires s in a.streams && EffectStep(a.config, d, s, a.streams[s], e)
    requires b.history == a.history + Records(s, e.notes) && k < |e.notes| && e.notes[k].Emitted?
    ensures NewEvent(a, d, b, s, e.notes[k].event)
  {
    assert EventStep(a.config, d, s, a.streams[s], e.notes, e.notes[k].event);
    NotesShow(a.history, s, e.notes);
  }

  lemma ApplyHistory(a: Actor, s: StreamId, e: Effect, d: Deed, b: Actor)
    requires s in a.streams && EffectStep(a.config, d, s, a.streams[s], e)
    requires b.history == a.history + Records(s, e.notes)
    ensures HistoryStep(a, d, b)
  {
    var n := |a.history|;
    forall i | n <= i < |b.history| && b.history[i].On? && b.history[i].note.Emitted?
      ensures NewEvent(a, d, b, b.history[i].s, b.history[i].note.event)
    {
      assert b.history[i] == On(s, e.notes[i - n]);
      OneNewEvent(a, s, e, d, b, i - n);
    }
  }

  lemma ApplyStep(a: Actor, s: StreamId, e: Effect, d: Deed)
    requires s in a.streams && EffectStep(a.config, d, s, a.streams[s], e) && d.stream.None?
    requires BrokeShows(Apply(a, s, e), d)
    ensures ActorStep(a, d, Apply(a, s, e))
  {
    ApplyStreams(a, s, e, d);
    ApplyHistory(a, s, e, d, Apply(a, s, e));
  }

  lemma OpenStep(a: Actor, q: OpenRequest, now: Instant)
    requires Inv(a)
    ensures ActorStep(a, DeedOf(a, DoOpen(q, now)), OpenStream(a, q, now))
  {
    var b, d := OpenStream(a, q, now), DeedOf(a, DoOpen(q, now));
    if OpenReplyFor(a).OpenDone? {
      OpenedShape(a, q, now);
      assert OpenReplyFor(a).s !in a.streams;
    }
    forall s | s in a.streams { SameStreams(a.config, d, a.streams[s]); }
  }

  lemma CommitFrameStep(a: Actor, f: PeerFrame, d: Deed)
    requires Says(a.config, d, f) && d.stream.None? && !d.broke
    ensures ActorStep(a, d, Commit(a, f))
  {
    forall s | s in a.streams { SameStreams(a.config, d, a.streams[s]); }
  }

  /** The stream is new: the guard let its identifier pass. */
  lemma AdmitStep(a: Actor, s: StreamId, q: OpenRequest, d: Deed)
    requires s !in a.streams && q.openIdentity.entryGateway == a.peerGateway && q.openIdentity !in a.activeOpens
    requires |a.streams| < a.config.maxStreams
    requires d == Deed(DoReceive(Open(s, q.openIdentity, q.destination, q.relaySessionId, q.bindingId)), None, false)
    ensures ActorStep(a, d, AdmitOpen(a, s, q))
  {
    var b := AdmitOpen(a, s, q);
    forall t | t in a.streams { SameStreams(a.config, d, a.streams[t]); }
    assert StreamsStep(a, d, b);
    var event := IncomingOpen(q.openIdentity, q.destination, q.relaySessionId, q.bindingId);
    assert b.history == a.history + [On(s, Inserted(q.openIdentity)), On(s, Emitted(event))];
  }

  lemma DeclineStep(a: Actor, s: StreamId, q: OpenRequest, d: Deed)
    requires !(q.openIdentity.entryGateway == a.peerGateway && q.openIdentity !in a.activeOpens
               && |a.streams| < a.config.maxStreams)
    requires d == Deed(DoReceive(Open(s, q.openIdentity, q.destination, q.relaySessionId, q.bindingId)), None, false)
    ensures ActorStep(a, d, AdmitOpen(a, s, q))
  {
    var c := a.config;
    if q.openIdentity.entryGateway != a.peerGateway {
      CommitFrameStep(a, Failed(s, PermissionDenied, NotObserved, c.text(EntryGatewayMismatch)), d);
    } else if |a.streams| >= a.config.maxStreams {
      CommitFrameStep(a, Failed(s, ResourceExhausted, NotObserved, c.text(StreamLimitReached)), d);
    } else {
      CommitFrameStep(a, Failed(s, AlreadyExists, NotObserved, c.text(IdentityActive)), d);
    }
  }

  lemma GuardedStep(a: Actor, s: StreamId, q: OpenRequest, d: Deed)
    requires d == Deed(DoReceive(Open(s, q.openIdentity, q.destination, q.relaySessionId, q.bindingId)), None, false)
    requires !GuardAccepts(a.Remote(), a.highest, s)
    ensures ActorStep(a, d, ReceiveOpen(a, s, q))
  {
    var m := a.(history := a.history + Records(s, [GuardRefused]));
    assert m.history == a.history + [On(s, GuardRefused)];
    CommitFrameStep(m, Failed(s, ProtocolError, NotObserved, a.config.text(StreamIdRefused)), d);
  }

  lemma ReceiveOpenStep(a: Actor, f: PeerFrame)
    requires Inv(a) && f.Open?
    ensures ActorStep(a, Deed(DoReceive(f), None, false), HandleFrame(a, f))
  {
    var d, s := Deed(DoReceive(f), None, false), f.streamId;
    var q := OpenRequest(f.openIdentity, f.destination, f.relaySessionId, f.bindingId);
    if GuardAccepts(a.Remote(), a.highest, s) {
      assert Fresh(a, s);
      assert s !in a.streams;
      PassedStep(a, s, q, d);
    } else {
      GuardedStep(a, s, q, d);
    }
  }

  lemma PassedStep(a: Actor, s: StreamId, q: OpenRequest, d: Deed)
    requires d == Deed(DoReceive(Open(s, q.openIdentity, q.destination, q.relaySessionId, q.bindingId)), None, false)
    requires GuardAccepts(a.Remote(), a.highest, s) && s !in a.streams
    ensures ActorStep(a, d, ReceiveOpen(a, s, q))
  {
    var m := a.(highest := Some(Counter(s)));
    if q.openIdentity.entryGateway == a.peerGateway && q.openIdentity !in a.activeOpens
       && |a.streams| < a.config.maxStreams { AdmitStep(m, s, q, d); }
    else { DeclineStep(m, s, q, d); }
  }

  lemma PumpActorStep(a: Actor, s: StreamId)
    ensures ActorStep(a, Deed(DoPump(s), None, false), PumpStream(a, s))
  {
    var d := Deed(DoPump(s), None, false);
    if Pumpable(a, s) {
      ApplyStep(a, s, Popped(a, s), d);
      assert QueuedFirst(a, a.streams[s].queue[0]);
    } else {
      forall t | t in a.streams { SameStreams(a.config, d, a.streams[t]); }
    }
  }

  lemma StillStep(a: Actor, d: Deed, b: Actor)
    requires b.streams == a.streams && b.history == a.history && b.config == a.config && b.local == a.local
    requires b.nextCounter == a.nextCounter && d.stream.None? && !d.broke
    requires b.writer == a.writer || b.writer == [] || (a.writer != [] && b.writer == a.writer[1..])
    ensures ActorStep(a, d, b)
  {
    forall t | t in a.streams { SameStreams(a.config, d, a.streams[t]); }
  }

  /** Every action does to its actor only what its deed says. */
  lemma NextStep(a: Actor, x: Action)
    requires Inv(a) && Enabled(a, x)
    ensures ActorStep(a, DeedOf(a, x), Next(a, x))
  {
    var d := DeedOf(a, x);
    match x
    case DoOpen(q, now) => OpenStep(a, q, now);
    case DoReceive(f) => ReceiveStep(a, f);
    case DoPump(s) => PumpActorStep(a, s);
    case DoPing(nonce) => CommitFrameStep(a, Ping(nonce), d);
    case DoCancel(_) => OneStreamStep(a, x);
    case DoStream(_, _) => OneStreamStep(a, x);
    case DoExpire(_, _) => OneStreamStep(a, x);
    case DoRetire(_) => OneStreamStep(a, x);
    case DoDrop(_) => OneStreamStep(a, x);
    case _ => StillStep(a, d, Next(a, x));
  }

  lemma ReceiveStep(a: Actor, f: PeerFrame)
    requires Inv(a)
    ensures ActorStep(a, DeedOf(a, DoReceive(f)), HandleFrame(a, f))
  {
    var d := DeedOf(a, DoReceive(f));
    if f.Open? {
      ReceiveOpenStep(a, f);
    } else if f.Ping? {
      CommitFrameStep(a, Pong(f.nonce), d);
    } else if !f.ForTransport() && f.streamId in a.streams {
      var s := f.streamId;
      InboundSays(a.config, a.local, s, a.streams[s], f, d);
      if d.broke { BreakShows(a, f); }
      ApplyStep(a, s, InboundOn(a.config, a.local, s, a.streams[s], f), d);
    } else {
      StillStep(a, d, a);
    }
  }

  lemma BreakShows(a: Actor, f: PeerFrame)
    requires Breaks(a, f)
    ensures Broken(HandleFrame(a, f).history, f.streamId)
  {
    var notes := InboundOn(a.config, a.local, f.streamId, a.streams[f.streamId], f).notes;
    var k :| 0 <= k < |notes| && notes[k] == ProtocolReset;
    assert HandleFrame(a, f).history[|a.history| + k] == On(f.streamId, ProtocolReset);
  }

  lemma OneStreamStep(a: Actor, x: Action)
    requires Inv(a) && (x.DoCancel? || x.DoStream? || x.DoExpire? || x.DoRetire? || x.DoDrop?)
    ensures ActorStep(a, DeedOf(a, x), Next(a, x))
  {
    var d := DeedOf(a, x);
    if Next(a, x) == a { StillStep(a, d, a); }
    else if x.DoCancel? {
      var s: StreamId := Least(OwnedBy(a, x.identity));
      var reset := CmdReset(Cancelled, a.config.text(OpenCancelled));
      CommandSays(a.config, a.local, s, a.streams[s], reset, d);
      ApplyStep(a, s, CommandOn(a.config, a.local, s, a.streams[s], reset), d);
    } else if x.DoStream? {
      CommandSays(a.config, a.local, x.s, a.streams[x.s], x.command, d);
      ApplyStep(a, x.s, CommandOn(a.config, a.local, x.s, a.streams[x.s], x.command), d);
    } else if x.DoExpire? {
      var st := a.streams[x.s];
      assert StreamOk(a.local, a.config.streamQueueCapacity, x.s, st);
      if Due(st, x.now) { ExpirySays(a.config, x.s, st, x.now); }
      ApplyStep(a, x.s, StreamEffect(a, x.s, x), d);
    } else if x.DoRetire? {
      ApplyStep(a, x.s, Leave(a.streams[x.s], []), d);
    } else {
      ApplyStep(a, x.s, DropOn(a.streams[x.s]), d);
    }
  }

  // --------------------------------------------------------------- the invariant

  lemma QueueStays(c: Config, ds: seq<Deed>, d: Deed, q: seq<PeerFrame>, r: seq<PeerFrame>)
    requires AllSaid(c, ds, q) && QueueStep(c, d, q, r)
    ensures AllSaid(c, ds + [d], r)
  {
    forall i | 0 <= i < |r| ensures Said(c, ds + [d], r[i]) {
      if |r| >= |q| && i < |q| { assert r == q || r[..|q|][i] == q[i]; }
      else if |r| < |q| { assert r[i] == q[i + 1]; }
      SaidStill(c, ds, d, r[i]);
    }
  }

  lemma QueuesStay(a: Actor, ds: seq<Deed>, d: Deed, b: Actor)
    requires QueuesSaid(a, ds) && ActorStep(a, d, b)
    ensures QueuesSaid(b, ds + [d])
  {
    forall s | s in b.streams ensures AllSaid(b.config, ds + [d], b.streams[s].queue) {
      if s in a.streams {
        assert AllSaid(a.config, ds, a.streams[s].queue);
        QueueStays(a.config, ds, d, a.streams[s].queue, b.streams[s].queue);
      }
    }
  }

  lemma OwnersStay(a: Actor, ds: seq<Deed>, d: Deed, b: Actor)
    requires OwnersAsked(a, ds) && ActorStep(a, d, b)
    ensures OwnersAsked(b, ds + [d])
  {
    forall s | s in b.streams && b.streams[s].origin == Local
      ensures Requested(ds + [d], s, b.streams[s].relay.owner)
    {
      if s in a.streams { RequestedStill(ds, s, a.streams[s].relay.owner, d); }
      else { assert (ds + [d])[|ds|] == d; }
    }
  }

  lemma OnceStays(a: Actor, ds: seq<Deed>, d: Deed, b: Actor)
    requires OpenedOnce(a, ds) && ActorStep(a, d, b)
    ensures OpenedOnce(b, ds + [d])
  {
  }

  lemma BreaksStay(a: Actor, ds: seq<Deed>, d: Deed, b: Actor)
    requires AllBreaksShow(a, ds) && ActorStep(a, d, b)
    ensures AllBreaksShow(b, ds + [d])
  {
    forall i | 0 <= i < |ds| ensures BrokeShows(b, (ds + [d])[i]) {
      if ds[i].broke { BrokenStays(a.history, b.history, ds[i].action.frame.streamId); }
    }
  }

  /** What the events report stays accounted for, and new ones are. */
  lemma EventsStay(a: Actor, mine: seq<Deed>, peer: Config, other: seq<Deed>, d: Deed, b: Actor)
    requires EventsExplained(a, mine, peer, other) && OwnersAsked(a, mine) && ActorStep(a, d, b)
    requires d.action.DoReceive? ==> Said(peer, other, d.action.frame)
    ensures EventsExplained(b, mine + [d], peer, other)
  {
    forall i | 0 <= i < |b.history| ensures RecordExplained(b, mine + [d], peer, other, b.history[i]) {
      var r := b.history[i];
      if r.On? && r.note.Emitted? && !Broken(b.history, r.s) {
        if i < |a.history| {
          assert b.history[i] == a.history[i];
          assert RecordExplained(a, mine, peer, other, a.history[i]);
          BrokenStays(a.history, b.history, r.s);
          ExplainedStill(a.config, mine, peer, other, r.s, r.note.event, d);
        } else {
          NewExplained(a, mine, peer, other, d, b, r.s, r.note.event);
        }
      }
    }
  }

  lemma BrokenStays(h: seq<Record>, k: seq<Record>, s: StreamId)
    requires |h| <= |k| && k[..|h|] == h
    ensures Broken(h, s) ==> Broken(k, s)
  {
    if Broken(h, s) {
      var i :| 0 <= i < |h| && h[i] == On(s, ProtocolReset);
      assert k[i] == h[i];
    }
  }

  lemma NewExplained(a: Actor, mine: seq<Deed>, peer: Config, other: seq<Deed>, d: Deed, b: Actor, s: StreamId,
                     e: PeerEvent)
    requires OwnersAsked(a, mine) && NewEvent(a, d, b, s, e) && !Broken(b.history, s)
    requires d.action.DoReceive? ==> Said(peer, other, d.action.frame)
    ensures Explained(a.config, mine + [d], peer, other, s, e)
  {
    if d.action.DoReceive? && Reports(s, d.action.frame, e) { assert Heard(peer, other, s, e); }
    else { assert IsExpiry((mine + [d])[|mine|], s); }
    if e.OpenedEvent? || e.FailedEvent? { RequestedStill(mine, s, e.openIdentity, d); }
  }

  /** What a side has handed over, after one of its own actions. */
  lemma HandedStays(a: Actor, ds: seq<Deed>, d: Deed, b: Actor, wire: seq<PeerFrame>)
    requires QueuesSaid(a, ds) && AllSaid(a.config, ds, wire + a.writer) && ActorStep(a, d, b)
    ensures AllSaid(a.config, ds + [d], wire + b.writer)
  {
    var before, after := wire + a.writer, wire + b.writer;
    forall i | 0 <= i < |after| ensures Said(a.config, ds + [d], after[i]) {
      var k := i - |wire|;
      if i < |wire| { assert after[i] == before[i]; }
      else if k < |a.writer| && b.writer[k] == a.writer[k] { assert after[i] == before[i]; }
      else if k + 1 < |a.writer| && b.writer == a.writer[1..] { assert after[i] == before[i + 1]; }
      else if QueuedFirst(a, b.writer[k]) {
        var s :| s in a.streams && a.streams[s].queue != [] && a.streams[s].queue[0] == b.writer[k];
        assert Said(a.config, ds, a.streams[s].queue[0]);
      }
      SaidStill(a.config, ds, d, after[i]);
    }
  }

  /** The other side has acted: what this side reports stays explained. */
  lemma OtherActed(a: Actor, mine: seq<Deed>, peer: Config, other: seq<Deed>, d: Deed)
    requires EventsExplained(a, mine, peer, other)
    ensures EventsExplained(a, mine, peer, other + [d])
  {
    forall i | 0 <= i < |a.history| ensures RecordExplained(a, mine, peer, other + [d], a.history[i]) {
      var r := a.history[i];
      assert RecordExplained(a, mine, peer, other, r);
      if r.On? && r.note.Emitted? && !Broken(a.history, r.s) {
        ExplainedStill(a.config, mine, peer, other, r.s, r.note.event, d);
      }
    }
  }

  ghost predicate NetSaid(n: Net, e: Endpoint, mine: seq<Deed>, other: seq<Deed>) {
    SideSaid(n, e, mine, other) && SideSaid(n, e.Opposite(), other, mine)
  }

  lemma ActedSaid(n: Net, e: Endpoint, x: Action, mine: seq<Deed>, other: seq<Deed>, m: Net)
    requires SidesOk(n) && NetSaid(n, e, mine, other) && Enabled(n.Side(e), x)
    requires x.DoReceive? ==> Said(n.Side(e.Opposite()).config, other, x.frame)
    requires m.Side(e) == Next(n.Side(e), x) && m.Side(e.Opposite()) == n.Side(e.Opposite())
    requires AllSaid(n.Side(e).config, mine + [DeedOf(n.Side(e), x)], m.Handed(e))
    requires AllSaid(n.Side(e.Opposite()).config, other, m.Handed(e.Opposite()))
    ensures NetSaid(m, e, mine + [DeedOf(n.Side(e), x)], other)
  {
    var a, b, d := n.Side(e), m.Side(e), DeedOf(n.Side(e), x);
    var peer := n.Side(e.Opposite()).config;
    Expose(n, e, 0);
    NextStep(a, x);
    QueuesStay(a, mine, d, b);
    OwnersStay(a, mine, d, b);
    OnceStays(a, mine, d, b);
    BreaksStay(a, mine, d, b);
    EventsStay(a, mine, peer, other, d, b);
    OtherActed(n.Side(e.Opposite()), other, a.config, mine, d);
  }

  lemma ActsSaid(n: Net, e: Endpoint, x: Action, mine: seq<Deed>, other: seq<Deed>)
    requires SidesOk(n) && NetEnabled(n, Acts(e, x)) && NetSaid(n, e, mine, other)
    ensures NetSaid(n.With(e, Next(n.Side(e), x)), e, mine + [DeedOf(n.Side(e), x)], other)
  {
    var a := n.Side(e);
    Expose(n, e, 0);
    NextStep(a, x);
    HandedStays(a, mine, DeedOf(a, x), Next(a, x), n.Wire(e));
    ActedSaid(n, e, x, mine, other, n.With(e, Next(a, x)));
  }

  lemma TransmitsSaid(n: Net, e: Endpoint, mine: seq<Deed>, other: seq<Deed>)
    requires SidesOk(n) && NetEnabled(n, Transmits(e)) && NetSaid(n, e, mine, other)
    ensures NetSaid(NetNext(n, Transmits(e)), e, mine + [DeedOf(n.Side(e), DoTransmit)], other)
  {
    TransmitHanded(n, e, mine, DeedOf(n.Side(e), DoTransmit));
    ActedSaid(n, e, DoTransmit, mine, other, NetNext(n, Transmits(e)));
  }

  lemma DeliversSaid(n: Net, e: Endpoint, mine: seq<Deed>, other: seq<Deed>)
    requires SidesOk(n) && NetEnabled(n, Delivers(e)) && NetSaid(n, e, mine, other)
    ensures NetSaid(NetNext(n, Delivers(e)), e, mine + [DeedOf(n.Side(e), DoReceive(n.Wire(e.Opposite())[0]))], other)
  {
    var a, x := n.Side(e), DoReceive(n.Wire(e.Opposite())[0]);
    Expose(n, e, 0);
    NextStep(a, x);
    HandedStays(a, mine, DeedOf(a, x), Next(a, x), n.Wire(e));
    DeliverHanded(n, e, other);
    ActedSaid(n, e, x, mine, other, NetNext(n, Delivers(e)));
  }

  lemma StepSaid(n: Net, x: NetStep, mine: seq<Deed>, other: seq<Deed>)
    requires SidesOk(n) && NetEnabled(n, x) && NetSaid(n, x.e, mine, other)
    ensures NetSaid(NetNext(n, x), x.e, mine + [DeedOf(n.Side(x.e), ActionOf(n, x))], other)
  {
    match x
    case Acts(e, action) => ActsSaid(n, e, action, mine, other);
    case Transmits(e) => TransmitsSaid(n, e, mine, other);
    case Delivers(e) => DeliversSaid(n, e, mine, other);
  }

  lemma TransmitHanded(n: Net, e: Endpoint, mine: seq<Deed>, d: Deed)
    requires AllSaid(n.Side(e).config, mine, n.Handed(e)) && n.Side(e).writer != []
    ensures AllSaid(n.Side(e).config, mine + [d], NetNext(n, Transmits(e)).Handed(e))
  {
    var w := n.Side(e).writer;
    assert n.Wire(e) + [w[0]] + w[1..] == n.Handed(e);
    QueueStays(n.Side(e).config, mine, d, n.Handed(e), n.Handed(e));
  }

  lemma DeliverHanded(n: Net, e: Endpoint, other: seq<Deed>)
    requires AllSaid(n.Side(e.Opposite()).config, other, n.Handed(e.Opposite())) && n.Wire(e.Opposite()) != []
    ensures Said(n.Side(e.Opposite()).config, other, n.Wire(e.Opposite())[0])
    ensures AllSaid(n.Side(e.Opposite()).config, other, NetNext(n, Delivers(e)).Handed(e.Opposite()))
  {
    var before, after := n.Handed(e.Opposite()), NetNext(n, Delivers(e)).Handed(e.Opposite());
    assert before[0] == n.Wire(e.Opposite())[0];
    assert after == before[1..];
  }

  // ------------------------------------------------------------------------ runs

  /** What end `e` does in one step. */
  function Does(n: Net, x: NetStep, e: Endpoint): seq<Deed>
    requires NetEnabled(n, x)
  {
    if x.e == e then [DeedOf(n.Side(e), ActionOf(n, x))] else []
  }

  /** ... and in a run, in order. */
  function Deeds(n: Net, run: seq<NetStep>, e: Endpoint): seq<Deed>
    requires NetPossible(n, run)
    decreases |run|
  {
    if run == [] then [] else Does(n, run[0], e) + Deeds(NetNext(n, run[0]), run[1..], e)
  }

  /** Said on both sides. */
  ghost predicate AllNetSaid(n: Net, dialer: seq<Deed>, acceptor: seq<Deed>) { NetSaid(n, Dialer, dialer, acceptor) }

  lemma OneStepSaid(n: Net, x: NetStep, dialer: seq<Deed>, acceptor: seq<Deed>)
    requires SidesOk(n) && NetEnabled(n, x) && AllNetSaid(n, dialer, acceptor)
    ensures AllNetSaid(NetNext(n, x), dialer + Does(n, x, Dialer), acceptor + Does(n, x, Acceptor))
  {
    if x.e == Dialer {
      StepSaid(n, x, dialer, acceptor);
      assert acceptor + [] == acceptor;
    } else {
      StepSaid(n, x, acceptor, dialer);
      assert dialer + [] == dialer;
    }
  }

  lemma Regroup(a: seq<Deed>, b: seq<Deed>, c: seq<Deed>)
    ensures a + b + c == a + (b + c)
  {
  }

  lemma {:induction false} RunSaid(n: Net, run: seq<NetStep>, dialer: seq<Deed>, acceptor: seq<Deed>)
    requires NetInv(n) && NetPossible(n, run) && AllNetSaid(n, dialer, acceptor)
    ensures AllNetSaid(NetAfter(n, run), dialer + Deeds(n, run, Dialer), acceptor + Deeds(n, run, Acceptor))
    decreases |run|
  {
    if run == [] {
      assert dialer + [] == dialer && acceptor + [] == acceptor;
    } else {
      var x, m := run[0], NetNext(n, run[0]);
      NetNextInv(n, x);
      OneStepSaid(n, x, dialer, acceptor);
      RunSaid(m, run[1..], dialer + Does(n, x, Dialer), acceptor + Does(n, x, Acceptor));
      Regroup(dialer, Does(n, x, Dialer), Deeds(m, run[1..], Dialer));
      Regroup(acceptor, Does(n, x, Acceptor), Deeds(m, run[1..], Acceptor));
    }
  }

  lemma SaidThroughout(start: Net, run: seq<NetStep>, e: Endpoint)
    requires Connected(start) && NetPossible(start, run)
    ensures NetSaid(NetAfter(start, run), e, Deeds(start, run, e), Deeds(start, run, e.Opposite()))
  {
    ConnectedInv(start);
    RunSaid(start, run, [], []);
    assert [] + Deeds(start, run, Dialer) == Deeds(start, run, Dialer);
    assert [] + Deeds(start, run, Acceptor) == Deeds(start, run, Acceptor);
  }

  // ------------------------------------------------------------- what users see

  /**
   In every run of two connected actors, each event at one end reports, field by field, a frame that an action at
   the other end said, or this end's own deadline; and it names the identity this end asked to open.
   */
  lemma EventsTellTheTruth(start: Net, run: seq<NetStep>, e: Endpoint, i: nat)
    requires Connected(start) && NetPossible(start, run)
    requires var h := NetAfter(start, run).Side(e).history; i < |h| && h[i].On? && h[i].note.Emitted?
    ensures var n := NetAfter(start, run);
            var r := n.Side(e).history[i];
            Explained(n.Side(e).config, Deeds(start, run, e), n.Side(e.Opposite()).config,
                      Deeds(start, run, e.Opposite()), r.s, r.note.event)
  {
    SaidThroughout(start, run, e);
    var n := NetAfter(start, run);
    var r := n.Side(e).history[i];
    assert RecordExplained(n.Side(e), Deeds(start, run, e), n.Side(e.Opposite()).config,
                           Deeds(start, run, e.Opposite()), r);
    NotBroken(start, run, e, r.s);
  }

  lemma NotBroken(start: Net, run: seq<NetStep>, e: Endpoint, s: StreamId)
    requires Connected(start) && NetPossible(start, run)
    ensures !Broken(NetAfter(start, run).Side(e).history, s)
  {
    var h := NetAfter(start, run).Side(e).history;
    forall i | 0 <= i < |h| ensures h[i] != On(s, ProtocolReset) { NobodyBreaksTheProtocol(start, run, e, i); }
  }

  /** ... and no deed is a breach that could excuse anything. */
  lemma NobodyBreaks(start: Net, run: seq<NetStep>, e: Endpoint, j: nat)
    requires Connected(start) && NetPossible(start, run) && j < |Deeds(start, run, e)|
    ensures !Deeds(start, run, e)[j].broke
  {
    SaidThroughout(start, run, e);
    var d := Deeds(start, run, e)[j];
    assert BrokeShows(NetAfter(start, run).Side(e), d);
    if d.broke { NotBroken(start, run, e, d.action.frame.streamId); }
  }

  /** Why an event that was heard was said, and by which deed of the other end. */
  lemma Speaker(c: Config, other: seq<Deed>, s: StreamId, e: PeerEvent) returns (j: nat, f: PeerFrame)
    requires Heard(c, other, s, e)
    ensures j < |other| && Says(c, other[j], f) && Reports(s, f, e)
  {
    f :| Said(c, other, f) && Reports(s, f, e);
    j :| 0 <= j < |other| && Says(c, other[j], f);
  }

  /** Event `i` at end `e` of the net that a run from two connected actors has reached. */
  ghost predicate EventAt(start: Net, run: seq<NetStep>, e: Endpoint, i: nat, s: StreamId, event: PeerEvent)
    requires NetPossible(start, run)
  {
    var h := NetAfter(start, run).Side(e).history;
    Connected(start) && i < |h| && h[i] == On(s, Emitted(event))
  }

  ghost function ConfigOf(start: Net, run: seq<NetStep>, e: Endpoint): Config
    requires NetPossible(start, run)
  {
    NetAfter(start, run).Side(e).config
  }

  lemma TruthAt(start: Net, run: seq<NetStep>, e: Endpoint, i: nat, s: StreamId, event: PeerEvent)
    requires NetPossible(start, run) && EventAt(start, run, e, i, s, event)
    ensures Explained(ConfigOf(start, run, e), Deeds(start, run, e), ConfigOf(start, run, e.Opposite()),
                      Deeds(start, run, e.Opposite()), s, event)
    ensures forall j :: 0 <= j < |Deeds(start, run, e.Opposite())| ==> !Deeds(start, run, e.Opposite())[j].broke
  {
    EventsTellTheTruth(start, run, e, i);
    forall j | 0 <= j < |Deeds(start, run, e.Opposite())| ensures !Deeds(start, run, e.Opposite())[j].broke {
      NobodyBreaks(start, run, e.Opposite(), j);
    }
  }

  function OpenEvent(q: OpenRequest): PeerEvent {
    IncomingOpen(q.openIdentity, q.destination, q.relaySessionId, q.bindingId)
  }

  /** The deed asked for `q` and was answered with stream `s`. */
  predicate Opens(d: Deed, s: StreamId, q: OpenRequest) {
    d.stream == Some(s) && d.action.DoOpen? && d.action.request == q
  }

  lemma AskedBy(c: Config, asked: seq<Deed>, s: StreamId, q: OpenRequest) returns (j: nat)
    requires Heard(c, asked, s, OpenEvent(q))
    ensures j < |asked| && Opens(asked[j], s, q)
  {
    var f;
    j, f := Speaker(c, asked, s, OpenEvent(q));
  }

  lemma OnlyOnce(a: Actor, ds: seq<Deed>, s: StreamId, j: nat)
    requires OpenedOnce(a, ds) && j < |ds| && ds[j].stream == Some(s)
    ensures forall k :: 0 <= k < |ds| && ds[k].stream == Some(s) ==> k == j
  {
  }

  /** The OPEN event at one end carries exactly what the one OPEN the other end answered with its stream asked for. */
  lemma OpenArrivesAsAsked(start: Net, run: seq<NetStep>, e: Endpoint, i: nat, s: StreamId, q: OpenRequest)
    returns (j: nat)
    requires NetPossible(start, run) && EventAt(start, run, e, i, s, OpenEvent(q))
    ensures j < |Deeds(start, run, e.Opposite())| && Opens(Deeds(start, run, e.Opposite())[j], s, q)
    ensures var asked := Deeds(start, run, e.Opposite());
            forall k :: 0 <= k < |asked| && asked[k].stream == Some(s) ==> k == j
  {
    TruthAt(start, run, e, i, s, OpenEvent(q));
    j := AskedBy(ConfigOf(start, run, e.Opposite()), Deeds(start, run, e.Opposite()), s, q);
    SaidThroughout(start, run, e.Opposite());
    OnlyOnce(NetAfter(start, run).Side(e.Opposite()), Deeds(start, run, e.Opposite()), s, j);
  }

  /** What a deed says when it resets stream `s`. */
  predicate ResetsWith(c: Config, d: Deed, s: StreamId, code: ErrorCode, message: Bytes) {
    || d.action == DoStream(s, CmdReset(code, message))
    || (d.action == DoStream(s, CmdClose) && code == ProtocolError && message == c.text(CloseBeforeOpened))
    || (d.action.DoCancel? && code == Cancelled && message == c.text(OpenCancelled))
    || (IsExpiry(d, s) && code == DeadlineExceeded && message == c.text(OpenTimedOut))
  }

  /** ... when it refuses to open it. */
  predicate FailsWith(c: Config, d: Deed, s: StreamId, failure: PeerFailure) {
    || d.action == DoStream(s, CmdFailed(failure))
    || (d.action.DoReceive? && d.action.frame.Open? && d.action.frame.streamId == s
        && Declines(c, s, Failed(s, failure.code, failure.observation, failure.message)))
  }

  lemma WhoResets(c: Config, d: Deed, s: StreamId, code: ErrorCode, message: Bytes)
    requires Says(c, d, Reset(s, code, message)) && !d.broke
    ensures ResetsWith(c, d, s, code, message)
  {
  }

  lemma WhoFails(c: Config, d: Deed, s: StreamId, failure: PeerFailure)
    requires Says(c, d, Failed(s, failure.code, failure.observation, failure.message))
    ensures FailsWith(c, d, s, failure)
  {
  }

  /** Code and message of a RESET event are those of a reset at the other end. */
  lemma ResetArrivesAsSaid(start: Net, run: seq<NetStep>, e: Endpoint, i: nat, s: StreamId, code: ErrorCode,
                           message: Bytes) returns (j: nat)
    requires NetPossible(start, run) && EventAt(start, run, e, i, s, ResetEvent(code, message))
    ensures j < |Deeds(start, run, e.Opposite())|
    ensures ResetsWith(ConfigOf(start, run, e.Opposite()), Deeds(start, run, e.Opposite())[j], s, code, message)
  {
    TruthAt(start, run, e, i, s, ResetEvent(code, message));
    var f;
    j, f := Speaker(ConfigOf(start, run, e.Opposite()), Deeds(start, run, e.Opposite()), s, ResetEvent(code, message));
    WhoResets(ConfigOf(start, run, e.Opposite()), Deeds(start, run, e.Opposite())[j], s, code, message);
  }

  /** Why an OPEN failed: this end's deadline passed, or the other end refused or reset it with these words. */
  ghost predicate FailureCause(c: Config, mine: seq<Deed>, peer: Config, other: seq<Deed>, s: StreamId,
                               failure: PeerFailure) {
    || (failure == TimedOut(c) && Expired(mine, s))
    || (exists j :: 0 <= j < |other| && FailsWith(peer, other[j], s, failure))
    || (failure.observation == MaybeObserved
        && exists j :: 0 <= j < |other| && ResetsWith(peer, other[j], s, failure.code, failure.message))
  }

  lemma CauseOf(c: Config, mine: seq<Deed>, peer: Config, other: seq<Deed>, s: StreamId, id: OpenIdentity,
                failure: PeerFailure)
    requires Explained(c, mine, peer, other, s, FailedEvent(id, failure))
    requires forall j :: 0 <= j < |other| ==> !other[j].broke
    ensures FailureCause(c, mine, peer, other, s, failure)
  {
    if Heard(peer, other, s, FailedEvent(id, failure)) {
      var j, f := Speaker(peer, other, s, FailedEvent(id, failure));
      if f.Failed? { WhoFails(peer, other[j], s, failure); }
      else { WhoResets(peer, other[j], s, failure.code, failure.message); }
    }
  }

  /** Code, observation and message of a failed OPEN are what their cause said; the identity is the one asked for. */
  lemma FailureArrivesAsSaid(start: Net, run: seq<NetStep>, e: Endpoint, i: nat, s: StreamId, id: OpenIdentity,
                             failure: PeerFailure)
    requires NetPossible(start, run) && EventAt(start, run, e, i, s, FailedEvent(id, failure))
    ensures FailureCause(ConfigOf(start, run, e), Deeds(start, run, e), ConfigOf(start, run, e.Opposite()),
                         Deeds(start, run, e.Opposite()), s, failure)
    ensures Requested(Deeds(start, run, e), s, id)
  {
    TruthAt(start, run, e, i, s, FailedEvent(id, failure));
    CauseOf(ConfigOf(start, run, e), Deeds(start, run, e), ConfigOf(start, run, e.Opposite()),
            Deeds(start, run, e.Opposite()), s, id, failure);
  }
}
