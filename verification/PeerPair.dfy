/** One stream seen from both of its ends, and what each action does to that picture. */
module PeerPair {
  import opened Common
  import opened ErrorCodes
  import opened PeerFrames
  import opened PeerActor
  import opened PeerLifecycle
  import opened PeerLane

  /** `fwd` and `bwd` hold the frames each end has handed to its writer and not yet seen delivered. */
  datatype Pair = Pair(o: StreamEnd, r: StreamEnd, fwd: seq<PeerFrame>, bwd: seq<PeerFrame>)

  /** Frames handed over, followed by those still queued at a sender whose writer lives. */
  function Pipe(x: StreamEnd, handed: seq<PeerFrame>): seq<PeerFrame> {
    if x.closed || x.here.None? then handed else handed + x.here.value.queue
  }

  predicate Blank(x: Summary) { x.delivered == [] && x.accepted == [] && !x.finSeen }

  ghost predicate PairOk(p: Pair) {
    && p.o.me == p.r.me.Opposite()
    && Flow(p.o, p.r, false, Pipe(p.o, p.fwd))
    && Flow(p.r, p.o, true, Pipe(p.r, p.bwd))
    && (HasOpened(Pipe(p.r, p.bwd)) || p.o.Stage().Receiving? ==> p.r.Stage().Receiving? || p.r.Stage() == Deaf)
    && (p.r.unused ==> p.r.here.None? && p.bwd == [] && Blank(p.r.sum) && !p.o.sum.finSeen)
    && (p.o.unused ==> p.o.here.None? && p.fwd == [] && Blank(p.o.sum) && p.r.unused)
    && !p.o.sum.violated && !p.r.sum.violated
  }

  function EndAfter(h: StreamEnd, e: Effect, here: bool): StreamEnd {
    h.(here := e.next, sum := RunNotes(h.sum, e.notes, here))
  }

  // ----------------------------------------------- what a local effect amounts to

  /** The end's sending side is as before, or silenced. */
  predicate Idles(x: StreamEnd, w: StreamEnd)
    requires x.here.Some? && w.here.Some?
  {
    && w.here.value.queue == x.here.value.queue
    && w.sum.accepted == x.sum.accepted
    && (x.OwnFin() ==> w.OwnFin())
    && (w.here.value.terminalQueued ||
        (!x.here.value.terminalQueued && w.OwnFin() == x.OwnFin() &&
            w.here.value.relay.phase == x.here.value.relay.phase))
  }

  /** A live end acts on its own: it queues at most one frame that its state
      allows, and its own hearing changes only by answering or going deaf. */
  ghost predicate ActsAlone(x: StreamEnd, w: StreamEnd, toOpener: bool) {
    && x.here.Some? && w.here.Some? && w.me == x.me && w.closed == x.closed && w.unused == x.unused
    && w.sum.delivered == x.sum.delivered && w.sum.finSeen == x.sum.finSeen && w.sum.violated == x.sum.violated
    && (w.Stage() == x.Stage() || w.Stage() == Deaf ||
        (toOpener && x.Stage() == Awaiting && w.Stage() == Receiving(false)))
    && (Idles(x, w) || exists f :: Says(x, w, toOpener, f))
  }

  predicate Says(x: StreamEnd, w: StreamEnd, toOpener: bool, f: PeerFrame) {
    && Speaks(x, w, toOpener, f)
    && w.here.value.queue == x.here.value.queue + [f]
    && (f.Opened? ==> w.Stage().Receiving?)
  }

  /** The shape shared by all commands: keep the stream, or queue `f` and become `next`. */
  lemma QueueActs(x: StreamEnd, w: StreamEnd, toOpener: bool, f: PeerFrame)
    requires x.here.Some? && w.here.Some? && w.me == x.me && w.closed == x.closed && w.unused == x.unused
    requires w.sum.delivered == x.sum.delivered && w.sum.finSeen == x.sum.finSeen && w.sum.violated == x.sum.violated
    requires w.Stage() == x.Stage() || w.Stage() == Deaf
             || (f.Opened? && toOpener && x.Stage() == Awaiting && w.Stage() == Receiving(false))
    requires Speaks(x, w, toOpener, f) && w.here.value.queue == x.here.value.queue + [f]
    requires f.Opened? ==> w.Stage().Receiving?
    ensures ActsAlone(x, w, toOpener)
  {
    assert Says(x, w, toOpener, f);
  }

  lemma TerminalActs(c: Config, x: StreamEnd, s: StreamId, f: PeerFrame, here: bool, toOpener: bool)
    requires x.here.Some? && x.here.value.relay.phase != Ended
    requires f.Reset? || (f.Close? && x.here.value.relay.phase == Streaming)
             || (f.Failed? && toOpener && x.here.value.relay.phase == Opening)
    ensures x.here.value.terminalQueued ||
             ActsAlone(x, EndAfter(x, EnqueueTerminal(c, x.here.value, f), here), toOpener)
  {
    var w := EndAfter(x, EnqueueTerminal(c, x.here.value, f), here);
    if !x.here.value.terminalQueued && |x.here.value.queue| < c.streamQueueCapacity {
      QueueActs(x, w, toOpener, f);
    }
  }

  lemma OpenedActs(c: Config, x: StreamEnd, s: StreamId, here: bool)
    requires x.here.Some? && PhaseOk(x.me, s, x.here.value)
    ensures ActsAlone(x, EndAfter(x, SendOpened(c, s, x.here.value), here), x.me != Initiator(s))
  {
    var w := EndAfter(x, SendOpened(c, s, x.here.value), here);
    if w.here.value.queue != x.here.value.queue {
      QueueActs(x, w, true, Opened(s));
    }
  }

  lemma DataActs(c: Config, x: StreamEnd, s: StreamId, payload: Bytes, here: bool)
    requires x.here.Some? && PhaseOk(x.me, s, x.here.value)
    ensures ActsAlone(x, EndAfter(x, SendData(c, x.me, s, x.here.value, payload), here), x.me != Initiator(s))
  {
    var w := EndAfter(x, SendData(c, x.me, s, x.here.value, payload), here);
    if SendData(c, x.me, s, x.here.value, payload).notes == [Accepted(payload)] {
      OneNote(x.sum, Accepted(payload), here);
      QueueActs(x, w, x.me != Initiator(s), Data(s, payload));
    }
  }

  lemma FinActs(c: Config, x: StreamEnd, s: StreamId, here: bool)
    requires x.here.Some? && PhaseOk(x.me, s, x.here.value)
    ensures ActsAlone(x, EndAfter(x, SendFin(c, x.me, s, x.here.value), here), x.me != Initiator(s))
  {
    var w := EndAfter(x, SendFin(c, x.me, s, x.here.value), here);
    if w.here.value.queue != x.here.value.queue {
      QueueActs(x, w, x.me != Initiator(s), Fin(s));
    }
  }

  lemma CommandActs(c: Config, x: StreamEnd, s: StreamId, cmd: StreamCommand)
    requires x.here.Some? && PhaseOk(x.me, s, x.here.value)
    ensures ActsAlone(x, EndAfter(x, CommandOn(c, x.me, s, x.here.value, cmd), Initiator(s) == x.me),
                      x.me != Initiator(s))
  {
    var here, toOpener := Initiator(s) == x.me, x.me != Initiator(s);
    match cmd
    case CmdOpened => OpenedActs(c, x, s, here);
    case CmdData(payload) => DataActs(c, x, s, payload, here);
    case CmdFin => FinActs(c, x, s, here);
    case CmdFailed(failure) =>
      if !x.here.value.terminalQueued && x.here.value.origin == Remote && x.here.value.relay.phase == Opening {
        TerminalActs(c, x, s, Failed(s, failure.code, failure.observation, failure.message), here, toOpener);
      }
    case CmdClose =>
      if !x.here.value.terminalQueued && x.here.value.relay.phase == Streaming {
        TerminalActs(c, x, s, Close(s), here, toOpener);
      } else if !x.here.value.terminalQueued {
        TerminalActs(c, x, s, Reset(s, ProtocolError, c.text(CloseBeforeOpened)), here, toOpener);
      }
    case CmdReset(code, message) =>
      if !x.here.value.terminalQueued { TerminalActs(c, x, s, Reset(s, code, message), here, toOpener); }
  }

  lemma ExpireActs(c: Config, x: StreamEnd, s: StreamId, now: Instant)
    requires x.here.Some? && PhaseOk(x.me, s, x.here.value) && Due(x.here.value, now)
    ensures ActsAlone(x, EndAfter(x, ExpireOn(c, s, x.here.value), Initiator(s) == x.me), x.me != Initiator(s))
  {
    var st := x.here.value;
    var e := ExpireOn(c, s, st);
    var w := EndAfter(x, e, Initiator(s) == x.me);
    var failure := PeerFailure(DeadlineExceeded, MaybeObserved, c.text(OpenTimedOut));
    OneNote(x.sum, Emitted(FailedEvent(st.relay.owner, failure)), Initiator(s) == x.me);
    if |w.here.value.queue| == |st.queue| {
      assert Idles(x, w);
    } else {
      assert Says(x, w, x.me != Initiator(s), Reset(s, DeadlineExceeded, c.text(OpenTimedOut)));
    }
  }

  lemma PipeGrows(x: StreamEnd, w: StreamEnd, handed: seq<PeerFrame>, f: PeerFrame)
    requires x.here.Some? && w.here.Some? && x.closed == w.closed && w.here.value.queue == x.here.value.queue + [f]
    ensures Pipe(w, handed) == if x.closed then Pipe(x, handed) else Pipe(x, handed) + [f]
    ensures HasOpened(Pipe(w, handed)) ==> HasOpened(Pipe(x, handed)) || f.Opened?
  {
    if !x.closed {
      assert handed + (x.here.value.queue + [f]) == (handed + x.here.value.queue) + [f];
    }
  }

  lemma FlowActs(x: StreamEnd, w: StreamEnd, y: StreamEnd, toOpener: bool, handed: seq<PeerFrame>)
    requires Flow(x, y, toOpener, Pipe(x, handed)) && ActsAlone(x, w, toOpener)
    requires RelayOk(x.here.value.relay)
    ensures Flow(w, y, toOpener, Pipe(w, handed))
    ensures HasOpened(Pipe(w, handed)) ==> HasOpened(Pipe(x, handed)) || w.Stage().Receiving?
  {
    if Idles(x, w) {
      SenderQuiet(x, w, y, toOpener, Pipe(x, handed));
    } else {
      var f :| Says(x, w, toOpener, f);
      PipeGrows(x, w, handed, f);
      SenderSpeaks(x, w, y, toOpener, Pipe(x, handed), f);
    }
  }

  lemma OpenerActs(p: Pair, w: StreamEnd)
    requires PairOk(p) && ActsAlone(p.o, w, false) && RelayOk(p.o.here.value.relay)
    ensures PairOk(p.(o := w))
  {
    FlowActs(p.o, w, p.r, false, p.fwd);
    ReceiverDrifts(p.r, p.o, w, true, Pipe(p.r, p.bwd));
  }

  lemma ResponderActs(p: Pair, w: StreamEnd)
    requires PairOk(p) && ActsAlone(p.r, w, true) && RelayOk(p.r.here.value.relay)
    ensures PairOk(p.(r := w))
  {
    FlowActs(p.r, w, p.o, true, p.bwd);
    ReceiverDrifts(p.o, p.r, w, false, Pipe(p.o, p.fwd));
  }

  // ------------------------------------------------------ frames arriving

  /** A live, listening end takes in `f`: it hears it, breaks no rule, and its
      own sending side goes on, opens up, or ends. */
  predicate Listens(y: StreamEnd, z: StreamEnd, f: PeerFrame) {
    && y.here.Some? && Hears(y, z, f)
    && z.me == y.me && z.closed == y.closed && z.unused == y.unused
    && z.sum.accepted == y.sum.accepted && z.sum.violated == y.sum.violated
    && (z.here.Some? ==>
          && z.here.value.queue == y.here.value.queue && z.OwnFin() == y.OwnFin()
          && (|| z.here.value.terminalQueued
              || z.here.value.relay.phase == y.here.value.relay.phase
              || (f.Opened? && z.here.value.relay.phase == Streaming)))
    && (!f.Opened? && y.Stage() == Awaiting ==> z.Stage() == Deaf)
  }

  lemma LeaveListens(y: StreamEnd, n: Note, f: PeerFrame, here: bool)
    requires y.here.Some? && y.here.value.relay.phase != Ended && !y.unused
    requires n.Emitted? && !n.event.DataEvent? && (n.event.FinEvent? <==> f.Fin?) && !f.Data?
    ensures Listens(y, EndAfter(y, Leave(y.here.value, [n]), here), f)
  {
    var st := y.here.value;
    assert [n] + [StreamEnded(st.relay.owner)] == [n, StreamEnded(st.relay.owner)];
    TwoNotes(y.sum, n, StreamEnded(st.relay.owner), here);
  }

  lemma OpenedListens(c: Config, y: StreamEnd, s: StreamId, f: PeerFrame)
    requires y.here.Some? && !y.unused && PhaseOk(y.me, s, y.here.value) && f == Opened(s)
    requires y.Stage() == Awaiting && y.me == Initiator(s)
    ensures Listens(y, EndAfter(y, ReceiveOpened(c, s, y.here.value), true), f)
  {
    OneNote(y.sum, Emitted(OpenedEvent(y.here.value.relay.owner)), true);
  }

  lemma DataListens(c: Config, y: StreamEnd, s: StreamId, f: PeerFrame, here: bool)
    requires y.here.Some? && !y.unused && f.Data? && y.Stage() == Receiving(false)
    ensures Listens(y, EndAfter(y, ReceiveData(c, y.me, s, y.here.value, f.payload), here), f)
  {
    OneNote(y.sum, Emitted(DataEvent(f.payload)), here);
  }

  lemma FinListens(c: Config, y: StreamEnd, s: StreamId, f: PeerFrame, here: bool)
    requires y.here.Some? && !y.unused && f.Fin? && y.Stage() == Receiving(false)
    ensures Listens(y, EndAfter(y, ReceiveFin(c, y.me, s, y.here.value), here), f)
  {
    if ReceiveFin(c, y.me, s, y.here.value).next.None? {
      LeaveListens(y, Emitted(FinEvent), f, here);
    } else {
      OneNote(y.sum, Emitted(FinEvent), here);
    }
  }

  /** An acceptable frame never breaks the protocol. */
  lemma InboundListens(c: Config, y: StreamEnd, s: StreamId, f: PeerFrame)
    requires y.here.Some? && !y.unused && PhaseOk(y.me, s, y.here.value) && f.OnStream(s)
    requires y.Stage() != Deaf && Acceptable(y.Stage(), y.me == Initiator(s), f)
    ensures Listens(y, EndAfter(y, InboundOn(c, y.me, s, y.here.value, f), Initiator(s) == y.me), f)
  {
    var st := y.here.value;
    var here := Initiator(s) == y.me;
    match f
    case Opened(_) => OpenedListens(c, y, s, f);
    case Failed(_, code, observation, message) =>
      LeaveListens(y, Emitted(FailedEvent(st.relay.owner, PeerFailure(code, observation, message))), f, here);
    case Data(_, payload) => DataListens(c, y, s, f, here);
    case Fin(_) => FinListens(c, y, s, f, here);
    case Close(_) => LeaveListens(y, Emitted(CloseEvent), f, here);
    case Reset(_, code, message) => LeaveListens(y, TerminalReset(st, code, message), f, here);
    case _ =>
  }

  lemma PipeHead(x: StreamEnd, f: PeerFrame, rest: seq<PeerFrame>)
    ensures Pipe(x, [f] + rest) == [f] + Pipe(x, rest)
  {
    if !x.closed && x.here.Some? {
      assert ([f] + rest) + x.here.value.queue == [f] + (rest + x.here.value.queue);
    }
  }

  lemma FewerOpened(pipe: seq<PeerFrame>, shorter: seq<PeerFrame>)
    requires shorter <= pipe
    ensures HasOpened(shorter) ==> HasOpened(pipe)
  {
    if HasOpened(shorter) {
      var i :| 0 <= i < |shorter| && shorter[i].Opened?;
      assert pipe[i].Opened?;
    }
  }

  /** The sending side of an end that has just listened. */
  lemma ListenerSends(y: StreamEnd, z: StreamEnd, x: StreamEnd, f: PeerFrame, toOpener: bool, handed: seq<PeerFrame>)
    requires Flow(y, x, toOpener, Pipe(y, handed)) && Listens(y, z, f) && RelayOk(y.here.value.relay)
    requires y.Stage() != Deaf
    requires f.Opened? ==> x.Stage().Receiving? || x.Stage() == Deaf
    ensures Flow(z, x, toOpener, Pipe(z, handed))
    ensures HasOpened(Pipe(z, handed)) ==> HasOpened(Pipe(y, handed))
  {
    if z.here.Some? {
      SenderQuiet(y, z, x, toOpener, Pipe(y, handed));
    } else {
      var lost := if y.closed then [] else y.here.value.queue;
      assert Pipe(y, handed) == handed + lost;
      SenderCut(y, z, x, toOpener, handed, lost);
      FewerOpened(Pipe(y, handed), handed);
    }
  }

  lemma ResponderListens(p: Pair, z: StreamEnd, f: PeerFrame, rest: seq<PeerFrame>)
    requires PairOk(p) && p.fwd == [f] + rest && p.r.Stage() != Deaf && Listens(p.r, z, f)
    requires RelayOk(p.r.here.value.relay) && !p.r.unused && !f.Opened?
    ensures PairOk(p.(r := z, fwd := rest))
  {
    PipeHead(p.o, f, rest);
    ReceiverHears(p.o, p.r, z, false, f, Pipe(p.o, rest));
    ListenerSends(p.r, z, p.o, f, true, p.bwd);
  }

  lemma OpenerListens(p: Pair, z: StreamEnd, f: PeerFrame, rest: seq<PeerFrame>)
    requires PairOk(p) && p.bwd == [f] + rest && p.o.Stage() != Deaf && Listens(p.o, z, f)
    requires RelayOk(p.o.here.value.relay) && !p.o.unused
    ensures PairOk(p.(o := z, bwd := rest))
  {
    PipeHead(p.r, f, rest);
    if f.Opened? { assert Pipe(p.r, p.bwd)[0] == f; }
    ReceiverHears(p.r, p.o, z, true, f, Pipe(p.r, rest));
    ListenerSends(p.o, z, p.r, f, false, p.fwd);
    if HasOpened(Pipe(p.r, rest)) {
      var i :| 0 <= i < |Pipe(p.r, rest)| && Pipe(p.r, rest)[i].Opened?;
      assert Pipe(p.r, p.bwd)[i + 1].Opened?;
    }
  }

  lemma ResponderDeaf(p: Pair, f: PeerFrame, rest: seq<PeerFrame>)
    requires PairOk(p) && p.fwd == [f] + rest && p.r.Stage() == Deaf
    ensures PairOk(p.(fwd := rest))
  {
    PipeHead(p.o, f, rest);
    DeafReceiverHears(p.o, p.r, false, f, Pipe(p.o, rest));
  }

  lemma OpenerDeaf(p: Pair, f: PeerFrame, rest: seq<PeerFrame>)
    requires PairOk(p) && p.bwd == [f] + rest && p.o.Stage() == Deaf
    ensures PairOk(p.(bwd := rest))
  {
    PipeHead(p.r, f, rest);
    DeafReceiverHears(p.r, p.o, true, f, Pipe(p.r, rest));
    if HasOpened(Pipe(p.r, rest)) {
      var i :| 0 <= i < |Pipe(p.r, rest)| && Pipe(p.r, rest)[i].Opened?;
      assert Pipe(p.r, p.bwd)[i + 1].Opened?;
    }
  }

  // ------------------------------------- opening, admitting, draining, leaving

  /** An unused identifier takes its place at the opener, with its OPEN handed over. */
  lemma OpenerOpens(p: Pair, w: StreamEnd, f: PeerFrame)
    requires PairOk(p) && p.o.unused && f.Open?
    requires w.here.Some? && w.here.value.relay.phase == Opening && !w.here.value.terminalQueued && !w.OwnFin()
    requires w.here.value.queue == [] && !w.unused && !w.closed && w.me == p.o.me
    requires Blank(w.sum) && !w.sum.violated
    ensures PairOk(p.(o := w, fwd := [f]))
  {
    var q := p.(o := w, fwd := [f]);
    assert Pipe(q.o, q.fwd) == [f];
    assert [f][1..] == [];
    assert Pipe(q.r, q.bwd) == [];
    assert AllAcceptable(q.r.Stage(), false, [f]);
    assert EndStage(q.r.Stage(), [f]) == Awaiting;
    assert Payloads([f]) == [];
  }

  /** An identifier is used up without reaching the wire. */
  lemma OpenerSkips(p: Pair)
    requires PairOk(p) && p.o.unused
    ensures PairOk(p.(o := p.o.(unused := false)))
  {
    var w := p.o.(unused := false);
    SenderCut(p.o, w, p.r, false, Pipe(p.o, p.fwd), []);
    ReceiverDrifts(p.r, p.o, w, true, Pipe(p.r, p.bwd));
  }

  /** The remote guard moves past an identifier whose OPEN is not under way. */
  lemma ResponderSkips(p: Pair)
    requires PairOk(p) && p.r.unused && Pipe(p.o, p.fwd) == [] && !p.o.unused
    ensures PairOk(p.(r := p.r.(unused := false)))
  {
    var w := p.r.(unused := false);
    SenderCut(p.r, w, p.o, true, Pipe(p.r, p.bwd), []);
    ReceiverDrifts(p.o, p.r, w, false, Pipe(p.o, p.fwd));
  }

  /** An OPEN arrives at a responder that takes the stream in. */
  lemma ResponderAdmits(p: Pair, z: StreamEnd, f: PeerFrame, rest: seq<PeerFrame>)
    requires PairOk(p) && p.fwd == [f] + rest && f.Open? && p.r.Stage() == Unknown
    requires z.here.Some? && z.here.value.relay.phase == Opening && !z.here.value.terminalQueued && !z.OwnFin()
    requires z.here.value.queue == [] && !z.unused && z.me == p.r.me && z.closed == p.r.closed
    requires Blank(z.sum) && !z.sum.violated
    ensures PairOk(p.(r := z, fwd := rest))
  {
    PipeHead(p.o, f, rest);
    ReceiverHears(p.o, p.r, z, false, f, Pipe(p.o, rest));
    assert Pipe(z, []) == [];
  }

  /** An OPEN arrives at a responder that refuses it, possibly answering FAILED. */
  lemma ResponderRejects(p: Pair, z: StreamEnd, f: PeerFrame, rest: seq<PeerFrame>, answer: seq<PeerFrame>)
    requires PairOk(p) && p.fwd == [f] + rest && f.Open? && p.r.Stage() == Unknown
    requires z == p.r.(unused := false)
    requires answer == [] || (|answer| == 1 && answer[0].Failed?)
    ensures PairOk(p.(r := z, fwd := rest, bwd := answer))
  {
    PipeHead(p.o, f, rest);
    ReceiverHears(p.o, p.r, z, false, f, Pipe(p.o, rest));
    if answer != [] {
      assert answer[1..] == [];
      assert Payloads(answer) == [];
      assert !HasFin(answer);
      assert AllAcceptable(p.o.Stage(), true, answer);
    }
  }

  /** A frame moves from an end's queue to its writer, or is lost with a closed one. */
  predicate Pumps(x: StreamEnd, w: StreamEnd, handed: seq<PeerFrame>, next: seq<PeerFrame>) {
    && x.here.Some? && x.here.value.queue != []
    && w == x.(here := Some(x.here.value.(queue := x.here.value.queue[1..])))
    && next == if x.closed then handed else handed + [x.here.value.queue[0]]
  }

  lemma PumpKeepsPipe(x: StreamEnd, w: StreamEnd, handed: seq<PeerFrame>, next: seq<PeerFrame>)
    requires Pumps(x, w, handed, next)
    ensures Pipe(w, next) == Pipe(x, handed)
  {
    var queue := x.here.value.queue;
    assert queue == [queue[0]] + queue[1..];
    assert (handed + [queue[0]]) + queue[1..] == handed + queue;
  }

  lemma OpenerPumps(p: Pair, w: StreamEnd, next: seq<PeerFrame>)
    requires PairOk(p) && Pumps(p.o, w, p.fwd, next) && RelayOk(p.o.here.value.relay)
    ensures PairOk(p.(o := w, fwd := next))
  {
    PumpKeepsPipe(p.o, w, p.fwd, next);
    SenderQuiet(p.o, w, p.r, false, Pipe(p.o, p.fwd));
    ReceiverDrifts(p.r, p.o, w, true, Pipe(p.r, p.bwd));
  }

  lemma ResponderPumps(p: Pair, w: StreamEnd, next: seq<PeerFrame>)
    requires PairOk(p) && Pumps(p.r, w, p.bwd, next) && RelayOk(p.r.here.value.relay) && !p.r.unused
    ensures PairOk(p.(r := w, bwd := next))
  {
    PumpKeepsPipe(p.r, w, p.bwd, next);
    SenderQuiet(p.r, w, p.o, true, Pipe(p.r, p.bwd));
    ReceiverDrifts(p.o, p.r, w, false, Pipe(p.o, p.fwd));
  }

  /** An end stops for good: its stream leaves, or its writer closes with frames in it. */
  predicate Stops(x: StreamEnd, w: StreamEnd, handed: seq<PeerFrame>, kept: seq<PeerFrame>) {
    && w.me == x.me && w.unused == x.unused && w.sum.accepted == x.sum.accepted
    && w.sum.delivered == x.sum.delivered && w.sum.finSeen == x.sum.finSeen && w.sum.violated == x.sum.violated
    && (w.here == x.here || (w.here.None? && !x.unused)) && (w.here.None? || w.closed)
    && kept <= handed
  }

  lemma StoppedFlow(x: StreamEnd, w: StreamEnd, y: StreamEnd, toOpener: bool, handed: seq<PeerFrame>,
                    kept: seq<PeerFrame>)
    requires Flow(x, y, toOpener, Pipe(x, handed)) && Stops(x, w, handed, kept)
    ensures Flow(w, y, toOpener, Pipe(w, kept))
    ensures HasOpened(Pipe(w, kept)) ==> HasOpened(Pipe(x, handed))
  {
    assert Pipe(w, kept) == kept;
    assert kept <= Pipe(x, handed);
    var lost := Pipe(x, handed)[|kept|..];
    assert Pipe(x, handed) == kept + lost;
    SenderCut(x, w, y, toOpener, kept, lost);
    FewerOpened(Pipe(x, handed), kept);
  }

  lemma OpenerStops(p: Pair, w: StreamEnd, kept: seq<PeerFrame>)
    requires PairOk(p) && Stops(p.o, w, p.fwd, kept)
    ensures PairOk(p.(o := w, fwd := kept))
  {
    StoppedFlow(p.o, w, p.r, false, p.fwd, kept);
    ReceiverDrifts(p.r, p.o, w, true, Pipe(p.r, p.bwd));
  }

  lemma ResponderStops(p: Pair, w: StreamEnd, kept: seq<PeerFrame>)
    requires PairOk(p) && Stops(p.r, w, p.bwd, kept)
    ensures PairOk(p.(r := w, bwd := kept))
  {
    StoppedFlow(p.r, w, p.o, true, p.bwd, kept);
    ReceiverDrifts(p.o, p.r, w, false, Pipe(p.o, p.fwd));
  }
}
