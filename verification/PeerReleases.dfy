/**
 Reservations and leftovers: an OPEN identity is reserved exactly as long as its
 stream lives, a refused OPEN leaves nothing behind, a stream that is over still
 has a frame to write, and deadlines and shutdown leave nothing due or alive.
 */
module PeerReleases {
  import opened Common
  import opened ErrorCodes
  import opened PeerFrames
  import opened PeerActor
  import opened PeerLifecycle
  import opened PeerRuns
  import opened FlushOrder
  import opened PeerTransport

  // ---------------------------------------------------------- identities

  /** Stream `s` of `a` is in `b`, under the same owner, exactly when `b` still reserves that owner. */
  ghost predicate HeldWhileLive(a: Actor, b: Actor, s: StreamId)
    requires s in a.streams
  {
    var owner := a.streams[s].relay.owner;
    && (s in b.streams <==> owner in b.activeOpens)
    && (s in b.streams ==> b.streams[s].relay.owner == owner)
  }

  lemma ApplyHolds(a: Actor, s: StreamId, e: Effect, t: StreamId)
    requires Wf(a) && s in a.streams && t in a.streams
    requires EffectOk(a.local, a.config.streamQueueCapacity, s, a.streams[s], e)
    ensures HeldWhileLive(a, Apply(a, s, e), t)
  {
    assert a.streams[t].relay.owner in a.activeOpens;
    assert t != s ==> a.streams[t].relay.owner != a.streams[s].relay.owner;
  }

  lemma RemoteOpenGrows(a: Actor, s: StreamId, q: OpenRequest, t: StreamId)
    requires t in a.streams && !Fresh(a, t)
    ensures var b := ReceiveOpen(a, s, q);
            t in b.streams && b.streams[t] == a.streams[t] && a.activeOpens <= b.activeOpens
  {
    assert GuardAccepts(a.Remote(), a.highest, s) ==> Fresh(a, s);
  }

  lemma RemoteOpenHolds(a: Actor, s: StreamId, q: OpenRequest, t: StreamId)
    requires Wf(a) && t in a.streams
    ensures HeldWhileLive(a, ReceiveOpen(a, s, q), t)
  {
    assert a.streams[t].relay.owner in a.activeOpens;
    RemoteOpenGrows(a, s, q, t);
  }

  lemma FrameHolds(a: Actor, f: PeerFrame, t: StreamId)
    requires Inv(a) && t in a.streams
    ensures HeldWhileLive(a, HandleFrame(a, f), t)
  {
    match f
    case Open(s, id, destination, session, binding) =>
      RemoteOpenHolds(a, s, OpenRequest(id, destination, session, binding), t);
    case Ping(_) => assert a.streams[t].relay.owner in a.activeOpens;
    case Pong(_) | Hello(_) | Welcome(_) | HandshakeRejected(_, _) =>
    case _ =>
      var s := f.streamId;
      if s in a.streams {
        assert LifeOk(a, s);
        InboundOk(a.config, a.local, s, a.streams[s], f);
        ApplyHolds(a, s, InboundOn(a.config, a.local, s, a.streams[s], f), t);
      }
  }

  lemma CommandHolds(a: Actor, s: StreamId, c: StreamCommand, t: StreamId)
    requires Wf(a) && s in a.streams && t in a.streams
    ensures HeldWhileLive(a, Apply(a, s, CommandOn(a.config, a.local, s, a.streams[s], c)), t)
  {
    CommandOk(a.config, a.local, s, a.streams[s], c);
    ApplyHolds(a, s, CommandOn(a.config, a.local, s, a.streams[s], c), t);
  }

  lemma PumpHolds(a: Actor, s: StreamId, t: StreamId)
    requires Wf(a) && t in a.streams
    ensures HeldWhileLive(a, PumpStream(a, s), t)
  {
    assert a.streams[t].relay.owner in a.activeOpens;
  }

  lemma OpenHolds(a: Actor, q: OpenRequest, now: Instant, t: StreamId)
    requires Wf(a) && t in a.streams && Enabled(a, DoOpen(q, now))
    ensures HeldWhileLive(a, OpenStream(a, q, now), t)
  {
    assert a.streams[t].relay.owner in a.activeOpens;
    assert t !in OwnedBy(a, q.openIdentity);
  }

  /** Every action: a stream's identity is given back when, and only when, the stream leaves. */
  lemma IdentityHeldWhileLive(a: Actor, x: Action, t: StreamId)
    requires Inv(a) && Enabled(a, x) && t in a.streams
    ensures HeldWhileLive(a, Next(a, x), t)
  {
    assert a.streams[t].relay.owner in a.activeOpens;
    match x
    case DoOpen(q, now) => OpenHolds(a, q, now, t);
    case DoCancel(id) =>
      if OwnedBy(a, id) != {} {
        CommandHolds(a, Least(OwnedBy(a, id)), CmdReset(Cancelled, a.config.text(OpenCancelled)), t);
      }
    case DoReceive(f) => FrameHolds(a, f, t);
    case DoPump(s) => PumpHolds(a, s, t);
    case DoRetire(s) => if s in a.streams { ApplyHolds(a, s, Leave(a.streams[s], []), t); }
    case DoStream(s, c) => if s in a.streams { CommandHolds(a, s, c, t); }
    case DoExpire(s, now) =>
      if s in a.streams {
        ExpireOk(a.config, a.local, s, a.streams[s]);
        ApplyHolds(a, s, StreamEffect(a, s, x), t);
      }
    case DoDrop(s) => if s in a.streams { ApplyHolds(a, s, DropOn(a.streams[s]), t); }
    case DoRelease(id) => assert t !in OwnedBy(a, id);
    case _ =>
  }

  /** A refused OPEN reserves nothing, sends nothing and reports the attempt's end. */
  lemma RefusedOpenLeavesNothing(a: Actor, q: OpenRequest, now: Instant)
    requires Inv(a) && Enabled(a, DoOpen(q, now)) && OpenReplyFor(a).OpenRefused?
    ensures var b := OpenStream(a, q, now);
            && q.openIdentity !in b.activeOpens
            && (forall id :: id != q.openIdentity ==> (id in b.activeOpens <==> id in a.activeOpens))
            && b.streams == a.streams && b.writer == a.writer && b.streamCount == a.streamCount
            && b.history == a.history + [AttemptEnded(q.openIdentity)]
    ensures OpenReplyFor(a).failure.observation == NotObserved
  {
  }

  lemma FrameAdds(a: Actor, f: PeerFrame, s: StreamId)
    requires s !in a.streams && s in HandleFrame(a, f).streams
    ensures f.Open? && f.streamId == s && GuardAccepts(a.Remote(), a.highest, s)
    ensures HandleFrame(a, f).streamCount == a.streamCount + 1
  {
  }

  lemma ActionAdds(a: Actor, x: Action, s: StreamId)
    requires Enabled(a, x) && s !in a.streams && s in Next(a, x).streams
    ensures Fresh(a, s) && Next(a, x).streamCount == a.streamCount + 1
  {
    if x.DoReceive? { FrameAdds(a, x.frame, s); }
  }

  /** A stream that appears was never seen before under that identifier, and never will be again. */
  lemma NewStreamsAreNew(a: Actor, x: Action, s: StreamId)
    requires Inv(a) && Enabled(a, x) && s !in a.streams && s in Next(a, x).streams
    ensures Fresh(a, s) && View(a, s).life == Unborn
    ensures !Fresh(Next(a, x), s) && Next(a, x).streamCount == a.streamCount + 1
  {
    ActionAdds(a, x, s);
    assert LifeOk(a, s);
    assert Inv(Next(a, x)) by { NextInv(a, x); }
    assert IdsUsed(Next(a, x).local, Next(a, x).nextCounter, Next(a, x).highest, Next(a, x).streams);
  }

  // ------------------------------------------------------------- leftovers

  /** Every live stream that is over still has a frame to write. */
  ghost predicate Settled(streams: map<StreamId, Stream>) {
    forall s :: s in streams && streams[s].terminalQueued ==> streams[s].queue != []
  }

  predicate EffectSettled(e: Effect) {
    e.next.Some? && e.next.value.terminalQueued ==> e.next.value.queue != []
  }

  lemma CommandSettled(c: Config, local: Endpoint, s: StreamId, st: Stream, x: StreamCommand)
    requires st.terminalQueued ==> st.queue != []
    ensures EffectSettled(CommandOn(c, local, s, st, x))
  {
  }

  lemma InboundSettled(c: Config, local: Endpoint, s: StreamId, st: Stream, f: PeerFrame)
    requires st.terminalQueued ==> st.queue != []
    ensures EffectSettled(InboundOn(c, local, s, st, f))
  {
  }

  lemma ApplySettled(a: Actor, s: StreamId, e: Effect)
    requires Settled(a.streams) && s in a.streams && EffectSettled(e)
    ensures Settled(Apply(a, s, e).streams)
  {
  }

  lemma FrameSettled(a: Actor, f: PeerFrame)
    requires Settled(a.streams)
    ensures Settled(HandleFrame(a, f).streams)
  {
    match f
    case Open(_, _, _, _, _) =>
    case Ping(_) =>
    case Pong(_) | Hello(_) | Welcome(_) | HandshakeRejected(_, _) =>
    case _ =>
      var s := f.streamId;
      if s in a.streams {
        InboundSettled(a.config, a.local, s, a.streams[s], f);
        ApplySettled(a, s, InboundOn(a.config, a.local, s, a.streams[s], f));
      }
  }

  /** Only a pump can leave a finished stream with nothing to write. */
  lemma ActionsSettle(a: Actor, x: Action)
    requires Settled(a.streams) && Enabled(a, x) && !x.DoPump?
    ensures Settled(Next(a, x).streams)
  {
    match x
    case DoReceive(f) => FrameSettled(a, f);
    case DoCancel(id) =>
      if OwnedBy(a, id) != {} {
        var s: StreamId := Least(OwnedBy(a, id));
        var reset := CmdReset(Cancelled, a.config.text(OpenCancelled));
        CommandSettled(a.config, a.local, s, a.streams[s], reset);
        ApplySettled(a, s, CommandOn(a.config, a.local, s, a.streams[s], reset));
      }
    case DoStream(s, c) =>
      if s in a.streams {
        CommandSettled(a.config, a.local, s, a.streams[s], c);
        ApplySettled(a, s, CommandOn(a.config, a.local, s, a.streams[s], c));
      }
    case DoExpire(s, now) => if s in a.streams { ApplySettled(a, s, StreamEffect(a, s, x)); }
    case _ =>
  }

  /** ... and the flush that pumped it retires it, unless it found the writer gone. */
  lemma FlushSettles(before: map<StreamId, Stream>, now: map<StreamId, Stream>, turns: seq<StreamId>)
    requires Settled(before) && Progressed(before, now, turns)
    ensures Settled(now)
  {
    forall s | s in now && now[s].terminalQueued ensures now[s].queue != [] {
      assert Fate(before[s], now, s, Count(turns, s));
    }
  }

  lemma FailureStays(a: Actor, x: Action)
    requires Enabled(a, x) && a.failure.Some?
    ensures Next(a, x).failure.Some?
  {
    if x.DoReceive? { assert HandleFrame(a, x.frame).failure.Some?; }
  }

  /** What a flush leaves: streams that had some turns, or a transport that has failed. */
  ghost predicate FlushLeaves(a: Actor, b: Actor) {
    && (a.failure.Some? ==> b.failure.Some?)
    && (b.failure.Some? || exists turns :: Progressed(a.streams, b.streams, turns))
  }

  predicate StillFailed(failed: bool, a: Actor) { failed ==> a.failure.Some? }

  lemma FailedIsStable(failed: bool)
    ensures Stable(x => StillFailed(failed, x))
  {
  }

  method Flush(t: TransportActor, ghost bound: nat, ghost plan: seq<StreamId>)
    requires t.Valid() && Remaining(t.streams, bound, plan)
    modifies t
    ensures t.Valid() && FlushLeaves(old(t.Value()), t.Value())
  {
    ghost var failed := t.failure.Some?;
    FailedIsStable(failed);
    ghost var verdict, turns, sent := t.FlushStreamQueues(x => StillFailed(failed, x), bound, plan);
  }

  /** An action other than a pump, or a whole flush. */
  datatype Move = Act(action: Action) | Flushed

  ghost predicate Moved(a: Actor, m: Move, b: Actor) {
    match m
    case Act(x) => Enabled(a, x) && !x.DoPump? && b == Next(a, x)
    case Flushed => FlushLeaves(a, b)
  }

  lemma MoveSettles(a: Actor, m: Move, b: Actor)
    requires Moved(a, m, b) && (Settled(a.streams) || a.failure.Some?)
    ensures Settled(b.streams) || b.failure.Some?
  {
    match m
    case Act(x) =>
      if a.failure.Some? { FailureStays(a, x); } else { ActionsSettle(a, x); }
    case Flushed =>
      if b.failure.None? {
        var turns :| Progressed(a.streams, b.streams, turns);
        FlushSettles(a.streams, b.streams, turns);
      }
  }

  /** After any actions and flushes, every finished stream still has a frame to write, or the transport has failed. */
  lemma {:induction false} SettledOrFailed(config: Config, peer: Uuid, local: Endpoint, active: set<OpenIdentity>,
                                           moves: seq<Move>, states: seq<Actor>, n: nat)
    requires |states| == |moves| + 1 && states[0] == NewActor(config, peer, local, active)
    requires forall i :: 0 <= i < |moves| ==> Moved(states[i], moves[i], states[i + 1])
    requires n <= |moves|
    ensures Settled(states[n].streams) || states[n].failure.Some?
  {
    if n > 0 {
      SettledOrFailed(config, peer, local, active, moves, states, n - 1);
      MoveSettles(states[n - 1], moves[n - 1], states[n]);
    }
  }

  // -------------------------------------------------- deadlines and shutdown

  function Drops(ids: seq<StreamId>): seq<Action> {
    seq(|ids|, i requires 0 <= i < |ids| => DoDrop(ids[i]))
  }

  /** The state when the streams `ids` have been lost, in that order. */
  ghost function Without(a: Actor, ids: seq<StreamId>): Actor {
    a.(streams := a.streams - (set s | s in ids), ready := a.ready - (set s | s in ids),
       activeOpens := a.activeOpens - Owners(a.streams, ids),
       streamCount := a.streamCount - |ids|,
       history := a.history + LossRecords(Losses(a.streams, ids)))
  }

  lemma LossRecordsAppend(losses: seq<Loss>, l: Loss)
    ensures LossRecords(losses + [l]) == LossRecords(losses) + [On(l.s, StreamLost(l.owner, l.progress))]
  {
  }

  lemma DropOneMore(a: Actor, ids: seq<StreamId>, s: StreamId)
    requires s in a.streams && s !in ids
    ensures Next(Without(a, ids), DoDrop(s)) == Without(a, ids + [s])
  {
    var b, longer := Without(a, ids), ids + [s];
    assert forall t :: t in longer <==> t in ids || t == s;
    assert a.streams - (set t | t in longer) == (a.streams - (set t | t in ids)) - {s};
    assert a.ready - (set t | t in longer) == (a.ready - (set t | t in ids)) - {s};
    LossesAppend(a.streams, ids, s);
    var l := Loss(s, a.streams[s].relay.owner, a.streams[s].progress);
    LossRecordsAppend(Losses(a.streams, ids), l);
    assert Records(s, DropOn(a.streams[s]).notes) == [On(s, StreamLost(l.owner, l.progress))];
    assert a.history + (LossRecords(Losses(a.streams, ids)) + [On(s, StreamLost(l.owner, l.progress))])
        == b.history + [On(s, StreamLost(l.owner, l.progress))];
  }

  lemma WithoutNone(a: Actor)
    ensures Without(a, []) == a
  {
    assert LossRecords(Losses(a.streams, [])) == [];
    assert Owners(a.streams, []) == {};
  }

  lemma DropNext(a: Actor, ids: seq<StreamId>, s: StreamId)
    requires s in a.streams && s !in ids && Possible(a, Drops(ids)) && After(a, Drops(ids)) == Without(a, ids)
    ensures Possible(a, Drops(ids + [s])) && After(a, Drops(ids + [s])) == Without(a, ids + [s])
  {
    RunAppend(a, Drops(ids), DoDrop(s));
    assert Drops(ids + [s]) == Drops(ids) + [DoDrop(s)];
    DropOneMore(a, ids, s);
  }

  lemma {:induction false} DropsSoFar(a: Actor, ids: seq<StreamId>)
    requires Ascends(ids) && forall s :: s in ids ==> s in a.streams
    ensures Possible(a, Drops(ids)) && After(a, Drops(ids)) == Without(a, ids)
  {
    if ids == [] {
      WithoutNone(a);
    } else {
      var init, s := ids[..|ids| - 1], ids[|ids| - 1];
      assert ids == init + [s];
      DropsSoFar(a, init);
      DropNext(a, init, s);
    }
  }

  /** The drain of a failed transport is a run of single losses: one per live stream, then nothing is left. */
  lemma DrainIsDrops(a: Actor)
    requires ReadyExact(a.streams, a.ready)
    ensures var ids := Ascending(a.streams.Keys);
            && Possible(a, Drops(ids))
            && After(a, Drops(ids)) == a.(streams := map[], ready := {},
                 activeOpens := a.activeOpens - Owners(a.streams, ids),
                 streamCount := a.streamCount - |a.streams|,
                 history := a.history + LossRecords(Losses(a.streams, ids)))
  {
    var ids := Ascending(a.streams.Keys);
    AscendingOk(a.streams.Keys);
    DropsSoFar(a, ids);
    AscendingLength(a.streams.Keys);
    assert a.streams - (set s | s in ids) == map[];
    assert a.ready - (set s | s in ids) == {};
  }

  lemma {:induction false} AscendingLength(s: set<StreamId>)
    ensures |Ascending(s)| == |s|
    decreases |s|
  {
    if s != {} {
      var least: StreamId := Least(set x | x in s);
      AscendingLength(s - {least});
    }
  }
}
