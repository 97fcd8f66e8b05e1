/**
 What every action of one transport actor keeps, for any interleaving of
 commands, deadlines, writer progress and inbound frames, well-behaved or not.
 */
module PeerLifecycle {
  import opened Common
  import opened ErrorCodes
  import opened PeerFrames
  import opened PeerActor

  // ------------------------------------------------------ structural invariant

  predicate RelayOk(r: Relay) {
    && (r.phase == Opening ==> !r.dialerFinished && !r.acceptorFinished)
    && (r.phase == Ended <==> r.dialerFinished && r.acceptorFinished)
  }

  /** Phase, progress, deadline and terminal mark of one live stream agree. */
  predicate PhaseOk(local: Endpoint, s: StreamId, st: Stream) {
    && RelayOk(st.relay)
    && (st.origin == Local <==> Initiator(s) == local)
    && (st.progress == ProgressOpened <==> st.relay.phase != Opening)
    && (st.relay.phase == Ended ==> st.terminalQueued)
    && (st.deadline.Some? ==> st.origin == Local && st.relay.phase == Opening && !st.terminalQueued)
  }

  /** The queue is bounded and holds only this stream's frames; OPEN never passes through it. */
  predicate QueueOk(capacity: nat, s: StreamId, queue: seq<PeerFrame>) {
    |queue| <= capacity && forall i :: 0 <= i < |queue| ==> queue[i].OnStream(s) && !queue[i].Open?
  }

  predicate StreamOk(local: Endpoint, capacity: nat, s: StreamId, st: Stream) {
    PhaseOk(local, s, st) && QueueOk(capacity, s, st.queue)
  }

  /** An identifier that no OPEN of this transport has used yet. */
  predicate FreshId(local: Endpoint, nextCounter: nat, highest: Option<nat>, s: StreamId) {
    if Initiator(s) == local then nextCounter <= Counter(s)
    else highest.Some? ==> highest.value < Counter(s)
  }

  predicate Fresh(a: Actor, s: StreamId) { FreshId(a.local, a.nextCounter, a.highest, s) }

  ghost predicate StreamsOk(local: Endpoint, capacity: nat, streams: map<StreamId, Stream>) {
    forall s :: s in streams ==> StreamOk(local, capacity, s, streams[s])
  }

  ghost predicate IdsUsed(local: Endpoint, nextCounter: nat, highest: Option<nat>, streams: map<StreamId, Stream>) {
    forall s :: s in streams ==> !FreshId(local, nextCounter, highest, s)
  }

  ghost predicate ReadyExact(streams: map<StreamId, Stream>, ready: set<StreamId>) {
    forall s :: s in ready <==> s in streams && streams[s].queue != []
  }

  ghost predicate OwnersReserved(streams: map<StreamId, Stream>, active: set<OpenIdentity>) {
    forall s :: s in streams ==> streams[s].relay.owner in active
  }

  ghost predicate OwnersDistinct(streams: map<StreamId, Stream>) {
    forall s, t :: s in streams && t in streams && streams[s].relay.owner == streams[t].relay.owner ==> s == t
  }

  /** Indexes, owners and counters agree with the stream map. */
  ghost predicate Wf(a: Actor) {
    && StreamsOk(a.local, a.config.streamQueueCapacity, a.streams)
    && IdsUsed(a.local, a.nextCounter, a.highest, a.streams)
    && ReadyExact(a.streams, a.ready)
    && OwnersReserved(a.streams, a.activeOpens)
    && OwnersDistinct(a.streams)
    && a.streamCount == |a.streams|
  }

  lemma InsertCount(m: map<StreamId, Stream>, s: StreamId, st: Stream)
    ensures |m[s := st]| == if s in m then |m| else |m| + 1
  {
    assert m[s := st].Keys == m.Keys + {s};
  }

  lemma RemoveCount(m: map<StreamId, Stream>, s: StreamId)
    requires s in m
    ensures |m - {s}| == |m| - 1
  {
    assert (m - {s}).Keys == m.Keys - {s};
  }

  /** An effect that leaves the stream sound and with the same owner. */
  predicate EffectOk(local: Endpoint, capacity: nat, s: StreamId, st: Stream, e: Effect) {
    e.next.Some? ==> StreamOk(local, capacity, s, e.next.value) && e.next.value.relay.owner == st.relay.owner
  }

  lemma PutSound(local: Endpoint, capacity: nat, m: map<StreamId, Stream>, s: StreamId, st: Stream)
    requires StreamsOk(local, capacity, m) && StreamOk(local, capacity, s, st)
    ensures StreamsOk(local, capacity, m[s := st])
  {
  }

  lemma PutReady(m: map<StreamId, Stream>, ready: set<StreamId>, s: StreamId, st: Stream)
    requires ReadyExact(m, ready)
    ensures ReadyExact(m[s := st], if st.queue == [] then ready - {s} else ready + {s})
  {
  }

  lemma PutOwners(m: map<StreamId, Stream>, active: set<OpenIdentity>, s: StreamId, st: Stream)
    requires OwnersReserved(m, active) && OwnersDistinct(m)
    requires s in m && st.relay.owner == m[s].relay.owner
    ensures OwnersReserved(m[s := st], active) && OwnersDistinct(m[s := st])
  {
  }

  lemma ApplyKeepWf(a: Actor, s: StreamId, e: Effect)
    requires Wf(a) && s in a.streams && e.next.Some?
    requires EffectOk(a.local, a.config.streamQueueCapacity, s, a.streams[s], e)
    ensures Wf(Apply(a, s, e))
  {
    var st := e.next.value;
    InsertCount(a.streams, s, st);
    PutSound(a.local, a.config.streamQueueCapacity, a.streams, s, st);
    PutReady(a.streams, a.ready, s, st);
    PutOwners(a.streams, a.activeOpens, s, st);
    assert IdsUsed(a.local, a.nextCounter, a.highest, a.streams[s := st]);
  }

  lemma RemoveOwner(m: map<StreamId, Stream>, active: set<OpenIdentity>, s: StreamId)
    requires OwnersReserved(m, active) && OwnersDistinct(m) && s in m
    ensures OwnersReserved(m - {s}, active - {m[s].relay.owner}) && OwnersDistinct(m - {s})
  {
  }

  lemma RemoveReady(m: map<StreamId, Stream>, ready: set<StreamId>, s: StreamId)
    requires ReadyExact(m, ready)
    ensures ReadyExact(m - {s}, ready - {s})
  {
  }

  lemma ApplyLeaveWf(a: Actor, s: StreamId, e: Effect)
    requires Wf(a) && s in a.streams && e.next.None?
    ensures Wf(Apply(a, s, e))
  {
    RemoveCount(a.streams, s);
    RemoveOwner(a.streams, a.activeOpens, s);
    RemoveReady(a.streams, a.ready, s);
    assert StreamsOk(a.local, a.config.streamQueueCapacity, a.streams - {s});
    assert IdsUsed(a.local, a.nextCounter, a.highest, a.streams - {s});
  }

  lemma ApplyWf(a: Actor, s: StreamId, e: Effect)
    requires Wf(a) && s in a.streams
    requires EffectOk(a.local, a.config.streamQueueCapacity, s, a.streams[s], e)
    ensures Wf(Apply(a, s, e))
  {
    if e.next.Some? { ApplyKeepWf(a, s, e); } else { ApplyLeaveWf(a, s, e); }
  }

  lemma EnqueueOk(c: Config, local: Endpoint, s: StreamId, st: Stream, f: PeerFrame, terminal: bool)
    requires StreamOk(local, c.streamQueueCapacity, s, st) && f.OnStream(s) && !f.Open?
    ensures Enqueue(c, st, f, terminal).Queued? ==>
              StreamOk(local, c.streamQueueCapacity, s, Enqueue(c, st, f, terminal).st)
  {
  }

  lemma CommandOk(c: Config, local: Endpoint, s: StreamId, st: Stream, x: StreamCommand)
    requires StreamOk(local, c.streamQueueCapacity, s, st)
    ensures EffectOk(local, c.streamQueueCapacity, s, st, CommandOn(c, local, s, st, x))
  {
    match x
    case CmdOpened => EnqueueOk(c, local, s, st, Opened(s), false);
    case CmdFailed(failure) =>
      EnqueueOk(c, local, s, st, Failed(s, failure.code, failure.observation, failure.message), true);
    case CmdData(payload) => EnqueueOk(c, local, s, st, Data(s, payload), false);
    case CmdFin => EnqueueOk(c, local, s, st, Fin(s), false);
    case CmdClose =>
      EnqueueOk(c, local, s, st, Close(s), true);
      ResetOk(c, local, s, st, ProtocolError, c.text(CloseBeforeOpened));
    case CmdReset(code, message) => ResetOk(c, local, s, st, code, message);
  }

  lemma ResetOk(c: Config, local: Endpoint, s: StreamId, st: Stream, code: ErrorCode, message: Bytes)
    requires StreamOk(local, c.streamQueueCapacity, s, st)
    ensures EffectOk(local, c.streamQueueCapacity, s, st, SendReset(c, s, st, code, message))
  {
    EnqueueOk(c, local, s, st, Reset(s, code, message), true);
  }

  lemma ExpireOk(c: Config, local: Endpoint, s: StreamId, st: Stream)
    requires StreamOk(local, c.streamQueueCapacity, s, st)
    ensures EffectOk(local, c.streamQueueCapacity, s, st, ExpireOn(c, s, st))
  {
    EnqueueOk(c, local, s, st, Reset(s, DeadlineExceeded, c.text(OpenTimedOut)), true);
  }

  lemma InboundOk(c: Config, local: Endpoint, s: StreamId, st: Stream, f: PeerFrame)
    requires StreamOk(local, c.streamQueueCapacity, s, st)
    ensures EffectOk(local, c.streamQueueCapacity, s, st, InboundOn(c, local, s, st, f))
  {
    forall d { ResetOk(c, local, s, st, ProtocolError, c.text(d)); }
  }

  // ---------------------------------------------------------- stream histories

  /** How far one stream's observable life has come. */
  datatype Life =
    | Unborn
    | Born(owner: OpenIdentity)       // OPEN committed or received, no opening event yet
    | Flowing(owner: OpenIdentity)    // opening event seen, DATA may follow
    | Half(owner: OpenIdentity)       // FIN seen
    | Silent(owner: OpenIdentity)     // Failed, Close or Reset seen
    | Gone
    | Broken
  {
    predicate Alive() { Born? || Flowing? || Half? || Silent? }
  }

  function LifeAfterEvent(l: Life, e: PeerEvent, locallyOpened: bool): Life {
    match e
    case IncomingOpen(id, _, _, _) => if l == Born(id) && !locallyOpened then Flowing(id) else Broken
    case OpenedEvent(id) => if l == Born(id) && locallyOpened then Flowing(id) else Broken
    case FailedEvent(id, _) => if l == Born(id) && locallyOpened then Silent(id) else Broken
    case DataEvent(_) => if l.Flowing? then l else Broken
    case FinEvent => if l.Flowing? then Half(l.owner) else Broken
    case CloseEvent => if l.Flowing? || l.Half? then Silent(l.owner) else Broken
    case ResetEvent(_, _) => if l.Flowing? || l.Half? then Silent(l.owner) else Broken
  }

  function LifeAfter(l: Life, n: Note, locallyOpened: bool): Life {
    match n
    case Inserted(id) => if l.Unborn? then Born(id) else Broken
    case Emitted(e) => LifeAfterEvent(l, e, locallyOpened)
    case StreamEnded(id) => if l.Alive() && l.owner == id then Gone else Broken
    case StreamLost(id, _) => if l.Alive() && l.owner == id then Gone else Broken
    case _ => l
  }

  /** What a history says about one stream. */
  datatype Summary = Summary(life: Life, delivered: seq<Bytes>, finSeen: bool,
                             accepted: seq<Bytes>, violated: bool)

  function SummaryAfter(x: Summary, n: Note, locallyOpened: bool): Summary {
    Summary(
      LifeAfter(x.life, n, locallyOpened),
      if n.Emitted? && n.event.DataEvent? then x.delivered + [n.event.payload] else x.delivered,
      x.finSeen || (n.Emitted? && n.event.FinEvent?),
      if n.Accepted? then x.accepted + [n.payload] else x.accepted,
      x.violated || n.GuardRefused? || n.ProtocolReset?)
  }

  function RunNotes(x: Summary, notes: seq<Note>, locallyOpened: bool): Summary {
    if notes == [] then x
    else SummaryAfter(RunNotes(x, notes[..|notes| - 1], locallyOpened), notes[|notes| - 1], locallyOpened)
  }

  function Summarize(h: seq<Record>, s: StreamId, local: Endpoint): Summary {
    if h == [] then Summary(Unborn, [], false, [], false)
    else
      var before := Summarize(h[..|h| - 1], s, local);
      var last := h[|h| - 1];
      if last.On? && last.s == s then SummaryAfter(before, last.note, Initiator(s) == local) else before
  }

  lemma SummarizeAppend(h: seq<Record>, r: Record, s: StreamId, local: Endpoint)
    ensures Summarize(h + [r], s, local) ==
            if r.On? && r.s == s then SummaryAfter(Summarize(h, s, local), r.note, Initiator(s) == local)
            else Summarize(h, s, local)
  {
    assert (h + [r])[..|h|] == h;
  }

  lemma {:induction false} SummarizeNotes(h: seq<Record>, s: StreamId, notes: seq<Note>, t: StreamId, local: Endpoint)
    ensures Summarize(h + Records(s, notes), t, local) ==
            if s == t then RunNotes(Summarize(h, t, local), notes, Initiator(t) == local)
            else Summarize(h, t, local)
  {
    if notes == [] {
      assert h + Records(s, notes) == h;
    } else {
      var init, last := notes[..|notes| - 1], notes[|notes| - 1];
      SummarizeNotes(h, s, init, t, local);
      assert h + Records(s, notes) == (h + Records(s, init)) + [On(s, last)];
      SummarizeAppend(h + Records(s, init), On(s, last), t, local);
    }
  }

  function View(a: Actor, s: StreamId): Summary { Summarize(a.history, s, a.local) }

  /** The life a live stream must show, read off its current state. */
  predicate LifeMatches(local: Endpoint, st: Stream, l: Life) {
    var id := st.relay.owner;
    if st.terminalQueued then l.Alive() && l.owner == id
    else if st.origin == Local && st.progress == AfterOpenCommit then l == Born(id)
    else if st.relay.Finished(local.Opposite()) then l == Half(id)
    else l == Flowing(id)
  }

  predicate LifeOk(a: Actor, s: StreamId) {
    var l := View(a, s).life;
    if s in a.streams then LifeMatches(a.local, a.streams[s], l)
    else l == Unborn || (l == Gone && !Fresh(a, s))
  }

  /** An effect whose notes lead from the stream's life to that of its next state. */
  predicate EffectLives(local: Endpoint, s: StreamId, st: Stream, e: Effect, x: Summary) {
    var y := RunNotes(x, e.notes, Initiator(s) == local);
    if e.next.Some? then LifeMatches(local, e.next.value, y.life) else y.life == Gone
  }

  lemma OneNote(x: Summary, n: Note, here: bool)
    ensures RunNotes(x, [n], here) == SummaryAfter(x, n, here)
  {
    assert [n][..0] == [];
  }

  lemma TwoNotes(x: Summary, m: Note, n: Note, here: bool)
    ensures RunNotes(x, [m, n], here) == SummaryAfter(SummaryAfter(x, m, here), n, here)
  {
    assert [m, n][..1] == [m];
    OneNote(x, m, here);
  }

  /** Nothing observable happened and the life still fits, because the stream went terminal or kept its place. */
  lemma QuietLives(local: Endpoint, s: StreamId, st: Stream, e: Effect, y: Summary)
    requires LifeMatches(local, st, y.life) && e.notes == [] && e.next.Some?
    requires e.next.value.relay.owner == st.relay.owner
    requires e.next.value.terminalQueued || LifeMatches(local, e.next.value, y.life)
    ensures EffectLives(local, s, st, e, y)
  {
  }

  lemma CommandLives(c: Config, local: Endpoint, s: StreamId, st: Stream, x: StreamCommand, y: Summary)
    requires PhaseOk(local, s, st) && LifeMatches(local, st, y.life)
    ensures EffectLives(local, s, st, CommandOn(c, local, s, st, x), y)
  {
    if x.CmdData? {
      OneNote(y, Accepted(x.payload), Initiator(s) == local);
    } else {
      QuietLives(local, s, st, CommandOn(c, local, s, st, x), y);
    }
  }

  lemma ExpireLives(c: Config, local: Endpoint, s: StreamId, st: Stream, now: Instant, y: Summary)
    requires PhaseOk(local, s, st) && LifeMatches(local, st, y.life) && Due(st, now)
    ensures EffectLives(local, s, st, ExpireOn(c, s, st), y)
  {
    var failure := PeerFailure(DeadlineExceeded, MaybeObserved, c.text(OpenTimedOut));
    OneNote(y, Emitted(FailedEvent(st.relay.owner, failure)), Initiator(s) == local);
  }

  lemma DropLives(local: Endpoint, s: StreamId, st: Stream, y: Summary)
    requires LifeMatches(local, st, y.life)
    ensures EffectLives(local, s, st, DropOn(st), y)
  {
    OneNote(y, StreamLost(st.relay.owner, st.progress), Initiator(s) == local);
  }

  lemma RetireLives(local: Endpoint, s: StreamId, st: Stream, y: Summary)
    requires LifeMatches(local, st, y.life)
    ensures EffectLives(local, s, st, Leave(st, []), y)
  {
    assert [] + [StreamEnded(st.relay.owner)] == [StreamEnded(st.relay.owner)];
    OneNote(y, StreamEnded(st.relay.owner), Initiator(s) == local);
  }

  lemma BreakLives(c: Config, local: Endpoint, s: StreamId, st: Stream, d: Diagnostic, y: Summary)
    requires PhaseOk(local, s, st) && LifeMatches(local, st, y.life) && !st.terminalQueued
    ensures EffectLives(local, s, st, BreakProtocol(c, s, st, d), y)
  {
    TwoNotes(y, ProtocolReset, TerminalReset(st, ProtocolError, c.text(d)), Initiator(s) == local);
    OneNote(y, ProtocolReset, Initiator(s) == local);
  }

  /** A last event followed by the stream's departure. */
  lemma LeaveLives(local: Endpoint, s: StreamId, st: Stream, n: Note, y: Summary)
    requires LifeMatches(local, st, y.life)
    requires LifeAfter(y.life, n, Initiator(s) == local).Alive()
    requires LifeAfter(y.life, n, Initiator(s) == local).owner == st.relay.owner
    ensures EffectLives(local, s, st, Leave(st, [n]), y)
  {
    assert [n] + [StreamEnded(st.relay.owner)] == [n, StreamEnded(st.relay.owner)];
    TwoNotes(y, n, StreamEnded(st.relay.owner), Initiator(s) == local);
  }

  lemma OpenedLives(c: Config, local: Endpoint, s: StreamId, st: Stream, y: Summary)
    requires PhaseOk(local, s, st) && LifeMatches(local, st, y.life) && !st.terminalQueued
    ensures EffectLives(local, s, st, ReceiveOpened(c, s, st), y)
  {
    if ReceiveOpened(c, s, st).notes == [Emitted(OpenedEvent(st.relay.owner))] {
      OneNote(y, Emitted(OpenedEvent(st.relay.owner)), Initiator(s) == local);
    } else {
      BreakLives(c, local, s, st, OpenedForRemoteStream, y);
      BreakLives(c, local, s, st, OpenedInvalidPhase, y);
    }
  }

  lemma FailedLives(c: Config, local: Endpoint, s: StreamId, st: Stream, failure: PeerFailure, y: Summary)
    requires PhaseOk(local, s, st) && LifeMatches(local, st, y.life) && !st.terminalQueued
    ensures EffectLives(local, s, st, ReceiveFailed(c, s, st, failure), y)
  {
    if ReceiveFailed(c, s, st, failure).next.None? {
      LeaveLives(local, s, st, Emitted(FailedEvent(st.relay.owner, failure)), y);
    } else {
      BreakLives(c, local, s, st, FailedInvalidPhase, y);
    }
  }

  lemma DataLives(c: Config, local: Endpoint, s: StreamId, st: Stream, payload: Bytes, y: Summary)
    requires PhaseOk(local, s, st) && LifeMatches(local, st, y.life) && !st.terminalQueued
    ensures EffectLives(local, s, st, ReceiveData(c, local, s, st, payload), y)
  {
    if st.relay.AcceptsData(local.Opposite()) {
      OneNote(y, Emitted(DataEvent(payload)), Initiator(s) == local);
    } else {
      BreakLives(c, local, s, st, DataInvalidPhase, y);
    }
  }

  lemma CloseLives(c: Config, local: Endpoint, s: StreamId, st: Stream, y: Summary)
    requires PhaseOk(local, s, st) && LifeMatches(local, st, y.life) && !st.terminalQueued
    ensures EffectLives(local, s, st, ReceiveClose(c, s, st), y)
  {
    if st.relay.phase == Streaming {
      LeaveLives(local, s, st, Emitted(CloseEvent), y);
    } else {
      BreakLives(c, local, s, st, CloseBeforeOpened, y);
    }
  }

  lemma FinLives(c: Config, local: Endpoint, s: StreamId, st: Stream, y: Summary)
    requires PhaseOk(local, s, st) && LifeMatches(local, st, y.life) && !st.terminalQueued
    ensures EffectLives(local, s, st, ReceiveFin(c, local, s, st), y)
  {
    if ReceiveFin(c, local, s, st).next.None? {
      LeaveLives(local, s, st, Emitted(FinEvent), y);
    } else {
      BreakLives(c, local, s, st, FinInvalidPhase, y);
      OneNote(y, Emitted(FinEvent), Initiator(s) == local);
    }
  }

  lemma InboundLives(c: Config, local: Endpoint, s: StreamId, st: Stream, f: PeerFrame, y: Summary)
    requires PhaseOk(local, s, st) && LifeMatches(local, st, y.life)
    ensures EffectLives(local, s, st, InboundOn(c, local, s, st, f), y)
  {
    if !st.terminalQueued {
      match f
      case Opened(_) => OpenedLives(c, local, s, st, y);
      case Failed(_, code, observation, message) =>
        FailedLives(c, local, s, st, PeerFailure(code, observation, message), y);
      case Data(_, payload) => DataLives(c, local, s, st, payload, y);
      case Fin(_) => FinLives(c, local, s, st, y);
      case Close(_) => CloseLives(c, local, s, st, y);
      case Reset(_, code, message) => LeaveLives(local, s, st, TerminalReset(st, code, message), y);
      case _ =>
    }
  }

  // ------------------------------------------------------------ whole actor

  ghost predicate Inv(a: Actor) {
    Wf(a) && forall s :: LifeOk(a, s)
  }

  lemma ApplyInv(a: Actor, s: StreamId, e: Effect)
    requires Inv(a) && s in a.streams
    requires EffectOk(a.local, a.config.streamQueueCapacity, s, a.streams[s], e)
    requires EffectLives(a.local, s, a.streams[s], e, View(a, s))
    ensures Inv(Apply(a, s, e))
  {
    ApplyWf(a, s, e);
    var b := Apply(a, s, e);
    forall t ensures LifeOk(b, t) {
      SummarizeNotes(a.history, s, e.notes, t, a.local);
      assert LifeOk(a, t);
    }
  }
}
