/** When a transport gives up on an OPEN that nobody answers: at its deadline, not before. */
module PeerDeadlines {
  import opened Common
  import opened ErrorCodes
  import opened PeerFrames
  import opened PeerActor
  import opened PeerLifecycle
  import opened PeerRuns
  import opened PeerGrammar
  import opened FlushOrder
  import opened PeerTransport

  /** Opened here, neither answered nor ended. */
  predicate Unanswered(st: Stream) { st.origin == Local && st.relay.phase == Opening && !st.terminalQueued }

  /** When each stream was opened, read off the actions. */
  function Noted(m: map<StreamId, Instant>, a: Actor, x: Action): map<StreamId, Instant> {
    if x.DoOpen? && OpenReplyFor(a).OpenDone? then m[OpenReplyFor(a).s := x.now] else m
  }

  function OpenTimes(m: map<StreamId, Instant>, a: Actor, run: seq<Action>): map<StreamId, Instant>
    requires Possible(a, run)
    decreases |run|
  {
    if run == [] then m else OpenTimes(Noted(m, a, run[0]), Next(a, run[0]), run[1..])
  }

  ghost predicate DeadlinesOk(a: Actor, m: map<StreamId, Instant>) {
    forall s :: s in a.streams && Unanswered(a.streams[s]) ==>
      s in m && a.streams[s].deadline == Some(m[s] + a.config.openResponseTimeout)
  }

  /** A stream that stays unanswered was so before, with the same deadline. */
  predicate Waits(st: Stream, next: Stream) {
    Unanswered(next) ==> Unanswered(st) && next.deadline == st.deadline
  }

  predicate EffectWaits(st: Stream, e: Effect) { e.next.Some? ==> Waits(st, e.next.value) }

  lemma CommandWaits(c: Config, local: Endpoint, s: StreamId, st: Stream, x: StreamCommand)
    ensures EffectWaits(st, CommandOn(c, local, s, st, x))
  {
  }

  lemma InboundWaits(c: Config, local: Endpoint, s: StreamId, st: Stream, f: PeerFrame)
    ensures EffectWaits(st, InboundOn(c, local, s, st, f))
  {
  }

  lemma ApplyWaits(a: Actor, s: StreamId, e: Effect, m: map<StreamId, Instant>)
    requires s in a.streams && EffectWaits(a.streams[s], e) && DeadlinesOk(a, m)
    ensures DeadlinesOk(Apply(a, s, e), m)
  {
  }

  lemma SameWaits(a: Actor, b: Actor, m: map<StreamId, Instant>)
    requires DeadlinesOk(a, m) && b.streams == a.streams && b.config == a.config
    ensures DeadlinesOk(b, m)
  {
  }

  lemma OpenWaits(a: Actor, q: OpenRequest, now: Instant, m: map<StreamId, Instant>)
    requires DeadlinesOk(a, m)
    ensures DeadlinesOk(OpenStream(a, q, now), Noted(m, a, DoOpen(q, now)))
  {
  }

  lemma StreamWaits(a: Actor, x: Action, m: map<StreamId, Instant>)
    requires DeadlinesOk(a, m) && (x.DoCancel? || x.DoStream? || x.DoExpire? || x.DoRetire? || x.DoDrop? || x.DoPump?)
    ensures DeadlinesOk(Next(a, x), m)
  {
    if Next(a, x) == a { }
    else if x.DoCancel? {
      var s: StreamId := Least(OwnedBy(a, x.identity));
      var reset := CmdReset(Cancelled, a.config.text(OpenCancelled));
      CommandWaits(a.config, a.local, s, a.streams[s], reset);
      ApplyWaits(a, s, CommandOn(a.config, a.local, s, a.streams[s], reset), m);
    } else if x.DoStream? {
      CommandWaits(a.config, a.local, x.s, a.streams[x.s], x.command);
      ApplyWaits(a, x.s, CommandOn(a.config, a.local, x.s, a.streams[x.s], x.command), m);
    } else if x.DoPump? {
      var st := a.streams[x.s];
      var popped := Keep(st.(queue := st.queue[1..])).(failed := WriterVerdict(a) == Closed);
      ApplyWaits(a, x.s, popped, m);
      SameWaits(Apply(a, x.s, popped), PumpStream(a, x.s), m);
    } else if x.DoRetire? {
      ApplyWaits(a, x.s, Leave(a.streams[x.s], []), m);
    } else {
      ApplyWaits(a, x.s, StreamEffect(a, x.s, x), m);
    }
  }

  lemma NextWaits(a: Actor, x: Action, m: map<StreamId, Instant>)
    requires Enabled(a, x) && DeadlinesOk(a, m)
    ensures DeadlinesOk(Next(a, x), Noted(m, a, x))
  {
    match x
    case DoOpen(q, now) => OpenWaits(a, q, now, m);
    case DoReceive(f) => ReceiveWaits(a, f, m);
    case DoPing(_) => SameWaits(a, Next(a, x), m);
    case DoFail(_) => SameWaits(a, Next(a, x), m);
    case DoReserve(_) => SameWaits(a, Next(a, x), m);
    case DoRelease(_) => SameWaits(a, Next(a, x), m);
    case DoTransmit => SameWaits(a, Next(a, x), m);
    case DoCloseWriter => SameWaits(a, Next(a, x), m);
    case _ => StreamWaits(a, x, m);
  }

  lemma ReceiveWaits(a: Actor, f: PeerFrame, m: map<StreamId, Instant>)
    requires DeadlinesOk(a, m)
    ensures DeadlinesOk(HandleFrame(a, f), m)
  {
    if f.Open? {
      OpenReceivedWaits(a, f.streamId, OpenRequest(f.openIdentity, f.destination, f.relaySessionId, f.bindingId), m);
    } else if !f.ForTransport() && f.streamId in a.streams {
      var s := f.streamId;
      InboundWaits(a.config, a.local, s, a.streams[s], f);
      ApplyWaits(a, s, InboundOn(a.config, a.local, s, a.streams[s], f), m);
    } else {
      SameWaits(a, HandleFrame(a, f), m);
    }
  }

  lemma OpenReceivedWaits(a: Actor, s: StreamId, q: OpenRequest, m: map<StreamId, Instant>)
    requires DeadlinesOk(a, m)
    ensures DeadlinesOk(ReceiveOpen(a, s, q), m)
  {
    var b := ReceiveOpen(a, s, q);
    OpenReceivedShape(a, s, q);
    if b.streams == a.streams { SameWaits(a, b, m); }
  }

  lemma OpenReceivedShape(a: Actor, s: StreamId, q: OpenRequest)
    ensures ReceiveOpen(a, s, q).config == a.config
    ensures ReceiveOpen(a, s, q).streams == a.streams
            || ReceiveOpen(a, s, q).streams == a.streams[s := OpeningStream(q.openIdentity, Remote, None)]
  {
  }

  lemma {:induction false} RunWaits(a: Actor, run: seq<Action>, m: map<StreamId, Instant>)
    requires Inv(a) && Possible(a, run) && DeadlinesOk(a, m)
    ensures DeadlinesOk(After(a, run), OpenTimes(m, a, run)) && Inv(After(a, run))
    decreases |run|
  {
    if run != [] {
      NextInv(a, run[0]);
      NextWaits(a, run[0], m);
      RunWaits(Next(a, run[0]), run[1..], Noted(m, a, run[0]));
    }
  }

  // ------------------------------------------------------------------ the pass

  /** What one expiry pass of the program at `now` makes of `a`. */
  ghost predicate Pass(a: Actor, b: Actor, now: Instant) {
    var expired := Ascending(DueStreams(a, now));
    exists n: nat :: n <= |expired| && ExpiredTo(a, b, expired, n, now) && (n < |expired| ==> b.failure.Some?)
  }

  /** The pass of the object is such a pass. */
  method ExpirePass(t: TransportActor, now: Instant)
    requires t.Valid()
    modifies t
    ensures t.Valid() && Pass(old(t.Value()), t.Value(), now)
  {
    ghost var n := t.ExpireOpenDeadlines(now);
  }

  function Failure(a: Actor, s: StreamId): Record
    requires s in a.streams
  {
    On(s, Emitted(FailedEvent(a.streams[s].relay.owner,
                              PeerFailure(DeadlineExceeded, MaybeObserved, a.config.text(OpenTimedOut)))))
  }

  /** Record `r` was added between `h` and `k`. */
  ghost predicate Added(h: seq<Record>, k: seq<Record>, r: Record) { exists i :: |h| <= i < |k| && k[i] == r }

  /** Nothing was added about stream `s`. */
  ghost predicate Quiet(h: seq<Record>, k: seq<Record>, s: StreamId) {
    forall i :: |h| <= i < |k| ==> !(k[i].On? && k[i].s == s)
  }

  lemma OneExpiry(a: Actor, t: StreamId, now: Instant, s: StreamId)
    requires s in a.streams
    ensures var b := Next(a, DoExpire(t, now));
            && s in b.streams && |a.history| <= |b.history| && b.history[..|a.history|] == a.history
            && b.config == a.config && (a.failure.Some? ==> b.failure.Some?)
            && (s != t ==> b.streams[s] == a.streams[s] && Quiet(a.history, b.history, s))
            && (s == t && Due(a.streams[s], now) ==> Added(a.history, b.history, Failure(a, s)) || b.failure.Some?)
  {
    var b := Next(a, DoExpire(t, now));
    if t in a.streams {
      var e := StreamEffect(a, t, DoExpire(t, now));
      assert b.history == a.history + Records(t, e.notes);
      if s == t && Due(a.streams[s], now) && !e.failed { assert b.history[|a.history|] == Failure(a, s); }
    }
  }

  lemma {:induction false} Expiring(a: Actor, ids: seq<StreamId>, n: nat, now: Instant, s: StreamId)
    requires s in a.streams && n <= |ids| && Ascends(ids) && Possible(a, Expiries(ids[..n], now))
    ensures var b := After(a, Expiries(ids[..n], now));
            && s in b.streams && |a.history| <= |b.history| && b.history[..|a.history|] == a.history
            && b.config == a.config && (a.failure.Some? ==> b.failure.Some?)
            && (s !in ids[..n] ==> b.streams[s] == a.streams[s] && Quiet(a.history, b.history, s))
            && (s in ids[..n] && Due(a.streams[s], now) ==>
                  Added(a.history, b.history, Failure(a, s)) || b.failure.Some?)
  {
    if n > 0 {
      var init, t := ids[..n - 1], ids[n - 1];
      assert ids[..n] == init + [t];
      assert Expiries(ids[..n], now) == Expiries(init, now) + [DoExpire(t, now)];
      ShorterPossible(a, Expiries(init, now), DoExpire(t, now));
      Expiring(a, ids, n - 1, now, s);
      ExpiriesStep(a, ids, n - 1, now);
      OneExpiry(After(a, Expiries(init, now)), t, now, s);
      ExpiringStep(a, After(a, Expiries(init, now)), After(a, Expiries(ids[..n], now)), ids, n, now, s);
    }
  }

  lemma ExpiringStep(a: Actor, c: Actor, b: Actor, ids: seq<StreamId>, n: nat, now: Instant, s: StreamId)
    requires s in a.streams && s in c.streams && 0 < n <= |ids| && Ascends(ids) && c.config == a.config
    requires |a.history| <= |c.history| <= |b.history|
    requires c.history[..|a.history|] == a.history && b.history[..|c.history|] == c.history
    requires s !in ids[..n - 1] ==> c.streams[s] == a.streams[s] && Quiet(a.history, c.history, s)
    requires s in ids[..n - 1] && Due(a.streams[s], now) ==>
               Added(a.history, c.history, Failure(a, s)) || c.failure.Some?
    requires c.failure.Some? ==> b.failure.Some?
    requires s in b.streams && (s != ids[n - 1] ==> b.streams[s] == c.streams[s] && Quiet(c.history, b.history, s))
    requires s == ids[n - 1] && Due(c.streams[s], now) ==>
               Added(c.history, b.history, Failure(c, s)) || b.failure.Some?
    ensures s !in ids[..n] ==> b.streams[s] == a.streams[s] && Quiet(a.history, b.history, s)
    ensures s in ids[..n] && Due(a.streams[s], now) ==> Added(a.history, b.history, Failure(a, s)) || b.failure.Some?
  {
    assert ids[..n] == ids[..n - 1] + [ids[n - 1]];
    if s !in ids[..n] {
      forall i | |a.history| <= i < |b.history| ensures !(b.history[i].On? && b.history[i].s == s) {
        if i < |c.history| { assert b.history[i] == c.history[i]; }
      }
    } else if Due(a.streams[s], now) && b.failure.None? {
      if s in ids[..n - 1] {
        var i :| |a.history| <= i < |c.history| && c.history[i] == Failure(a, s);
        assert b.history[i] == c.history[i];
      } else {
        var i :| |c.history| <= i < |b.history| && b.history[i] == Failure(c, s);
      }
    }
  }

  lemma ShorterPossible(a: Actor, run: seq<Action>, x: Action)
    requires Possible(a, run + [x])
    ensures Possible(a, run)
    decreases |run|
  {
    if run != [] {
      assert (run + [x])[0] == run[0] && (run + [x])[1..] == run[1..] + [x];
      ShorterPossible(Next(a, run[0]), run[1..], x);
    }
  }

  /** A pass fails exactly the streams that are due, and touches no other, unless the transport fails on the way. */
  lemma PassAt(a: Actor, b: Actor, now: Instant, s: StreamId)
    requires Pass(a, b, now) && s in a.streams
    ensures if Due(a.streams[s], now) then Added(a.history, b.history, Failure(a, s)) || b.failure.Some?
            else s in b.streams && b.streams[s] == a.streams[s] && Quiet(a.history, b.history, s)
  {
    var ids := Ascending(DueStreams(a, now));
    AscendingOk(DueStreams(a, now));
    var n: nat :| n <= |ids| && ExpiredTo(a, b, ids, n, now) && (n < |ids| ==> b.failure.Some?);
    Expiring(a, ids, n, now, s);
    assert s in ids <==> s in DueStreams(a, now);
    assert n == |ids| ==> ids[..n] == ids;
    assert forall x :: x in ids[..n] ==> x in ids;
  }

  /**
   In every run: a stream opened at `t` that is still unanswered gets its DeadlineExceeded failure from the first pass
   at or after `t` plus the response timeout (or the transport fails), and no earlier pass touches it.
   */
  lemma FailsAtItsDeadline(config: Config, peer: Uuid, local: Endpoint, active: set<OpenIdentity>, run: seq<Action>,
                           b: Actor, now: Instant, s: StreamId)
    requires Possible(NewActor(config, peer, local, active), run)
    requires var a := After(NewActor(config, peer, local, active), run);
             Pass(a, b, now) && s in a.streams && Unanswered(a.streams[s])
    ensures var start := NewActor(config, peer, local, active);
            var a, times := After(start, run), OpenTimes(map[], start, run);
            && s in times
            && if times[s] + config.openResponseTimeout <= now
               then Added(a.history, b.history, Failure(a, s)) || b.failure.Some?
               else s in b.streams && b.streams[s] == a.streams[s] && Quiet(a.history, b.history, s)
  {
    var start := NewActor(config, peer, local, active);
    StartInv(config, peer, local, active);
    RunWaits(start, run, map[]);
    RunKeepsEndpoint(start, run);
    PassAt(After(start, run), b, now, s);
  }

  /** ... and a stream that was answered, has ended or was opened by the other side is never touched. */
  lemma NoOtherFails(config: Config, peer: Uuid, local: Endpoint, active: set<OpenIdentity>, run: seq<Action>,
                     b: Actor, now: Instant, s: StreamId)
    requires Possible(NewActor(config, peer, local, active), run)
    requires var a := After(NewActor(config, peer, local, active), run);
             Pass(a, b, now) && s in a.streams && !Unanswered(a.streams[s])
    ensures var a := After(NewActor(config, peer, local, active), run);
            s in b.streams && b.streams[s] == a.streams[s] && Quiet(a.history, b.history, s)
  {
    var start := NewActor(config, peer, local, active);
    StartInv(config, peer, local, active);
    RunInv(start, run);
    var a := After(start, run);
    assert StreamOk(a.local, a.config.streamQueueCapacity, s, a.streams[s]);
    PassAt(a, b, now, s);
  }
}
