/** Every run of one transport actor, whatever the other side sends. */
module PeerRuns {
  import opened Common
  import opened ErrorCodes
  import opened PeerFrames
  import opened PeerActor
  import opened PeerLifecycle

  /** Nothing about streams, identifiers or history changed; only unused reservations may have gone. */
  ghost predicate Elsewhere(a: Actor, b: Actor) {
    && b.streams == a.streams && b.ready == a.ready && b.streamCount == a.streamCount
    && b.local == a.local && b.config == a.config
    && b.nextCounter >= a.nextCounter
    && (a.highest.Some? ==> b.highest.Some? && b.highest.value >= a.highest.value)
    && OwnersReserved(a.streams, b.activeOpens)
    && b.history == a.history
  }

  lemma ElsewhereInv(a: Actor, b: Actor)
    requires Inv(a) && Elsewhere(a, b)
    ensures Inv(b)
  {
    forall s ensures LifeOk(b, s) { assert LifeOk(a, s); }
  }

  /** A record that moves no stream's life. */
  lemma NotedInv(a: Actor, r: Record)
    requires Inv(a) && (r.AttemptEnded? || r.note == GuardRefused)
    ensures Inv(a.(history := a.history + [r]))
  {
    var b := a.(history := a.history + [r]);
    forall s ensures LifeOk(b, s) {
      SummarizeAppend(a.history, r, s, a.local);
      assert LifeOk(a, s);
    }
  }

  lemma UnownedRelease(a: Actor, id: OpenIdentity)
    requires Wf(a) && OwnedBy(a, id) == {}
    ensures OwnersReserved(a.streams, a.activeOpens - {id})
  {
    forall t | t in a.streams ensures a.streams[t].relay.owner != id { assert t !in OwnedBy(a, id); }
  }

  lemma InsertInv(a: Actor, b: Actor, s: StreamId, st: Stream, notes: seq<Note>)
    requires Inv(a) && Fresh(a, s)
    requires b == Insert(b.(streams := a.streams, streamCount := a.streamCount, history := a.history), s, st, notes)
    requires b.local == a.local && b.config == a.config && b.ready == a.ready
    requires b.nextCounter >= a.nextCounter
    requires a.highest.Some? ==> b.highest.Some? && b.highest.value >= a.highest.value
    requires !Fresh(b, s)
    requires a.activeOpens <= b.activeOpens && st.relay.owner in b.activeOpens && OwnedBy(a, st.relay.owner) == {}
    requires StreamOk(a.local, a.config.streamQueueCapacity, s, st) && st.queue == []
    requires forall x: Summary :: x.life == Unborn ==>
               LifeMatches(a.local, st, RunNotes(x, notes, Initiator(s) == a.local).life)
    ensures Inv(b)
  {
    InsertWf(a, b, s, st);
    forall t ensures LifeOk(b, t) {
      SummarizeNotes(a.history, s, notes, t, a.local);
      assert LifeOk(a, t);
    }
  }

  lemma InsertWf(a: Actor, b: Actor, s: StreamId, st: Stream)
    requires Wf(a) && Fresh(a, s)
    requires b.streams == a.streams[s := st] && b.streamCount == a.streamCount + 1
    requires b.local == a.local && b.config == a.config && b.ready == a.ready
    requires b.nextCounter >= a.nextCounter
    requires a.highest.Some? ==> b.highest.Some? && b.highest.value >= a.highest.value
    requires !Fresh(b, s)
    requires a.activeOpens <= b.activeOpens && st.relay.owner in b.activeOpens && OwnedBy(a, st.relay.owner) == {}
    requires StreamOk(a.local, a.config.streamQueueCapacity, s, st) && st.queue == []
    ensures Wf(b)
  {
    InsertCount(a.streams, s, st);
    PutSound(a.local, a.config.streamQueueCapacity, a.streams, s, st);
    assert ReadyExact(b.streams, b.ready);
    NewOwner(a, s, st);
    assert OwnersReserved(b.streams, b.activeOpens);
    assert IdsUsed(b.local, b.nextCounter, b.highest, b.streams);
  }

  lemma NewOwner(a: Actor, s: StreamId, st: Stream)
    requires Wf(a) && s !in a.streams && OwnedBy(a, st.relay.owner) == {}
    ensures OwnersDistinct(a.streams[s := st])
  {
    forall t | t in a.streams ensures a.streams[t].relay.owner != st.relay.owner {
      assert t !in OwnedBy(a, st.relay.owner);
    }
  }

  lemma OpenedShape(a: Actor, q: OpenRequest, now: Instant)
    requires OpenReplyFor(a).OpenDone?
    ensures var b, s := OpenStream(a, q, now), OpenReplyFor(a).s;
            && b == Insert(b.(streams := a.streams, streamCount := a.streamCount, history := a.history), s,
                           OpeningStream(q.openIdentity, Local, Some(now + a.config.openResponseTimeout)),
                           [Inserted(q.openIdentity)])
            && b.local == a.local && b.config == a.config && b.ready == a.ready && b.highest == a.highest
            && b.nextCounter == a.nextCounter + 1 && b.activeOpens == a.activeOpens
            && Fresh(a, s) && !Fresh(b, s) && Initiator(s) == a.local
  {
  }

  lemma OpenDoneInv(a: Actor, q: OpenRequest, now: Instant)
    requires Inv(a) && Enabled(a, DoOpen(q, now)) && OpenReplyFor(a).OpenDone?
    ensures Inv(OpenStream(a, q, now))
  {
    forall x: Summary | x.life == Unborn
      ensures RunNotes(x, [Inserted(q.openIdentity)], true).life == Born(q.openIdentity)
    {
      OneNote(x, Inserted(q.openIdentity), true);
    }
    OpenedShape(a, q, now);
    InsertInv(a, OpenStream(a, q, now), OpenReplyFor(a).s,
              OpeningStream(q.openIdentity, Local, Some(now + a.config.openResponseTimeout)),
              [Inserted(q.openIdentity)]);
  }

  lemma OpenInv(a: Actor, q: OpenRequest, now: Instant)
    requires Inv(a) && Enabled(a, DoOpen(q, now))
    ensures Inv(OpenStream(a, q, now))
  {
    match OpenReplyFor(a)
    case OpenRefused(_) =>
      var b := OpenStream(a, q, now);
      UnownedRelease(a, q.openIdentity);
      ElsewhereInv(a, b.(history := a.history));
      NotedInv(b.(history := a.history), AttemptEnded(q.openIdentity));
    case OpenDone(_) => OpenDoneInv(a, q, now);
  }

  lemma CommitElsewhere(a: Actor, f: PeerFrame)
    requires Inv(a)
    ensures Inv(Commit(a, f))
  {
    ElsewhereInv(a, Commit(a, f));
  }

  lemma GuardPassedInv(a: Actor, s: StreamId)
    requires Inv(a) && GuardAccepts(a.Remote(), a.highest, s)
    ensures Inv(a.(highest := Some(Counter(s))))
  {
    ElsewhereInv(a, a.(highest := Some(Counter(s))));
  }

  lemma AdmittedInv(a: Actor, s: StreamId, q: OpenRequest)
    requires Inv(a) && GuardAccepts(a.Remote(), a.highest, s) && q.openIdentity !in a.activeOpens
    ensures var id := q.openIdentity;
            Inv(Insert(a.(highest := Some(Counter(s)), activeOpens := a.activeOpens + {id}), s,
                       OpeningStream(id, Remote, None),
                       [Inserted(id), Emitted(IncomingOpen(id, q.destination, q.relaySessionId, q.bindingId))]))
  {
    var id := q.openIdentity;
    var opening := Emitted(IncomingOpen(id, q.destination, q.relaySessionId, q.bindingId));
    var b := Insert(a.(highest := Some(Counter(s)), activeOpens := a.activeOpens + {id}), s,
                    OpeningStream(id, Remote, None), [Inserted(id), opening]);
    assert OwnedBy(a, id) == {};
    forall x: Summary | x.life == Unborn
      ensures RunNotes(x, [Inserted(id), opening], false).life == Flowing(id)
    {
      TwoNotes(x, Inserted(id), opening, false);
    }
    InsertInv(a, b, s, OpeningStream(id, Remote, None), [Inserted(id), opening]);
  }

  lemma AdmitInv(a: Actor, s: StreamId, q: OpenRequest)
    requires Inv(a) && GuardAccepts(a.Remote(), a.highest, s)
    ensures Inv(AdmitOpen(a.(highest := Some(Counter(s))), s, q))
  {
    var passed := a.(highest := Some(Counter(s)));
    if q.openIdentity.entryGateway != a.peerGateway {
      RejectInv(a, s, PermissionDenied, EntryGatewayMismatch);
    } else if |a.streams| >= a.config.maxStreams {
      RejectInv(a, s, ResourceExhausted, StreamLimitReached);
    } else if q.openIdentity in a.activeOpens {
      RejectInv(a, s, AlreadyExists, IdentityActive);
    } else {
      AdmittedInv(a, s, q);
    }
  }

  lemma RejectInv(a: Actor, s: StreamId, code: ErrorCode, d: Diagnostic)
    requires Inv(a) && GuardAccepts(a.Remote(), a.highest, s)
    ensures Inv(RejectRemoteOpen(a.(highest := Some(Counter(s))), s, code, d))
  {
    GuardPassedInv(a, s);
    CommitElsewhere(a.(highest := Some(Counter(s))), Failed(s, code, NotObserved, a.config.text(d)));
  }

  lemma ReceiveOpenInv(a: Actor, s: StreamId, q: OpenRequest)
    requires Inv(a)
    ensures Inv(ReceiveOpen(a, s, q))
  {
    if GuardAccepts(a.Remote(), a.highest, s) {
      AdmitInv(a, s, q);
    } else {
      var noted := a.(history := a.history + Records(s, [GuardRefused]));
      assert Records(s, [GuardRefused]) == [On(s, GuardRefused)];
      NotedInv(a, On(s, GuardRefused));
      CommitElsewhere(noted, Failed(s, ProtocolError, NotObserved, a.config.text(StreamIdRefused)));
    }
  }

  lemma StreamFrameInv(a: Actor, f: PeerFrame)
    requires Inv(a) && !f.ForTransport() && !f.Open?
    ensures Inv(HandleFrame(a, f))
  {
    var s := f.streamId;
    var b := if s in a.streams then Apply(a, s, InboundOn(a.config, a.local, s, a.streams[s], f)) else a;
    assert HandleFrame(a, f) == b;
    if s in a.streams { InboundInv(a, s, f); }
  }

  lemma HandleFrameInv(a: Actor, f: PeerFrame)
    requires Inv(a)
    ensures Inv(HandleFrame(a, f))
  {
    if f.Open? {
      ReceiveOpenInv(a, f.streamId, OpenRequest(f.openIdentity, f.destination, f.relaySessionId, f.bindingId));
    } else if f.Ping? {
      CommitElsewhere(a, Pong(f.nonce));
    } else if !f.ForTransport() {
      StreamFrameInv(a, f);
    }
  }

  lemma InboundInv(a: Actor, s: StreamId, f: PeerFrame)
    requires Inv(a) && s in a.streams
    ensures Inv(Apply(a, s, InboundOn(a.config, a.local, s, a.streams[s], f)))
  {
    assert LifeOk(a, s);
    InboundOk(a.config, a.local, s, a.streams[s], f);
    InboundLives(a.config, a.local, s, a.streams[s], f, View(a, s));
    ApplyInv(a, s, InboundOn(a.config, a.local, s, a.streams[s], f));
  }

  lemma PumpInv(a: Actor, s: StreamId)
    requires Inv(a)
    ensures Inv(PumpStream(a, s))
  {
    if Pumpable(a, s) {
      assert LifeOk(a, s);
      var st := a.streams[s];
      var popped := Keep(st.(queue := st.queue[1..])).(failed := WriterVerdict(a) == Closed);
      ApplyInv(a, s, popped);
      ElsewhereInv(Apply(a, s, popped), PumpStream(a, s));
    }
  }

  lemma CommandInv(a: Actor, s: StreamId, c: StreamCommand)
    requires Inv(a) && s in a.streams
    ensures Inv(Apply(a, s, CommandOn(a.config, a.local, s, a.streams[s], c)))
  {
    assert LifeOk(a, s);
    CommandOk(a.config, a.local, s, a.streams[s], c);
    CommandLives(a.config, a.local, s, a.streams[s], c, View(a, s));
    ApplyInv(a, s, CommandOn(a.config, a.local, s, a.streams[s], c));
  }

  lemma ExpireInv(a: Actor, s: StreamId, now: Instant)
    requires Inv(a) && s in a.streams && Due(a.streams[s], now)
    ensures Inv(Apply(a, s, ExpireOn(a.config, s, a.streams[s])))
  {
    assert LifeOk(a, s);
    ExpireOk(a.config, a.local, s, a.streams[s]);
    ExpireLives(a.config, a.local, s, a.streams[s], now, View(a, s));
    ApplyInv(a, s, ExpireOn(a.config, s, a.streams[s]));
  }

  lemma DropInv(a: Actor, s: StreamId)
    requires Inv(a) && s in a.streams
    ensures Inv(Apply(a, s, DropOn(a.streams[s])))
  {
    assert LifeOk(a, s);
    DropLives(a.local, s, a.streams[s], View(a, s));
    ApplyInv(a, s, DropOn(a.streams[s]));
  }

  lemma RetireInv(a: Actor, s: StreamId)
    requires Inv(a)
    ensures Inv(RetireStream(a, s))
  {
    if s in a.streams {
      assert LifeOk(a, s);
      RetireLives(a.local, s, a.streams[s], View(a, s));
      ApplyInv(a, s, Leave(a.streams[s], []));
    }
  }

  lemma KeepInv(a: Actor, s: StreamId)
    requires Inv(a) && s in a.streams
    ensures Inv(Apply(a, s, Keep(a.streams[s])))
  {
    assert LifeOk(a, s);
    ApplyInv(a, s, Keep(a.streams[s]));
  }

  lemma CancelInv(a: Actor, id: OpenIdentity)
    requires Inv(a)
    ensures Inv(CancelOpen(a, id))
  {
    if OwnedBy(a, id) != {} {
      CommandInv(a, Least(OwnedBy(a, id)), CmdReset(Cancelled, a.config.text(OpenCancelled)));
    }
  }

  /** Actions of the actor's companion tasks touch no stream. */
  lemma OutsideInv(a: Actor, x: Action)
    requires Inv(a) && Enabled(a, x)
    requires x.DoFail? || x.DoReserve? || x.DoRelease? || x.DoTransmit? || x.DoCloseWriter?
    ensures Inv(Next(a, x))
  {
    if x.DoRelease? { UnownedRelease(a, x.identity); }
    ElsewhereInv(a, Next(a, x));
  }

  /** Every action keeps the invariant. */
  lemma NextInv(a: Actor, x: Action)
    requires Inv(a) && Enabled(a, x)
    ensures Inv(Next(a, x))
  {
    match x
    case DoOpen(q, now) => OpenInv(a, q, now);
    case DoCancel(id) => CancelInv(a, id);
    case DoReceive(f) => HandleFrameInv(a, f);
    case DoPump(s) => PumpInv(a, s);
    case DoRetire(s) => RetireInv(a, s);
    case DoPing(nonce) => CommitElsewhere(a, Ping(nonce));
    case DoStream(s, c) => if s in a.streams { CommandInv(a, s, c); }
    case DoExpire(s, now) =>
      if s in a.streams {
        if Due(a.streams[s], now) { ExpireInv(a, s, now); } else { KeepInv(a, s); }
      }
    case DoDrop(s) => if s in a.streams { DropInv(a, s); }
    case _ => OutsideInv(a, x);
  }

  // -------------------------------------------------------------------- runs

  ghost predicate Possible(a: Actor, run: seq<Action>)
    decreases |run|
  {
    run != [] ==> Enabled(a, run[0]) && Possible(Next(a, run[0]), run[1..])
  }

  function After(a: Actor, run: seq<Action>): Actor
    requires Possible(a, run)
    decreases |run|
  {
    if run == [] then a else After(Next(a, run[0]), run[1..])
  }

  lemma {:induction false} RunInv(a: Actor, run: seq<Action>)
    requires Inv(a) && Possible(a, run)
    ensures Inv(After(a, run))
    decreases |run|
  {
    if run != [] {
      NextInv(a, run[0]);
      RunInv(Next(a, run[0]), run[1..]);
    }
  }

  lemma {:induction false} RunAppend(a: Actor, run: seq<Action>, x: Action)
    requires Possible(a, run) && Enabled(After(a, run), x)
    ensures Possible(a, run + [x]) && After(a, run + [x]) == Next(After(a, run), x)
    decreases |run|
  {
    var longer := run + [x];
    if run == [] {
      assert longer[0] == x && longer[1..] == [];
    } else {
      assert longer[0] == run[0] && longer[1..] == run[1..] + [x];
      RunAppend(Next(a, run[0]), run[1..], x);
    }
  }
}
