/** What two well-behaved transport actors guarantee to their users, run after run. */
module PeerDelivery {
  import opened Common
  import opened ErrorCodes
  import opened PeerFrames
  import opened PeerActor
  import opened PeerLifecycle
  import opened PeerRuns
  import opened PeerGrammar
  import opened PeerLane
  import opened PeerPair
  import opened PeerNetwork

  // ------------------------------------------------------------- every step

  /** Actions on one live stream hand nothing to the writer. */
  lemma StreamActPairs(n: Net, e: Endpoint, x: Action)
    requires SidesOk(n) && PairsOk(n) && NetEnabled(n, Acts(e, x))
    requires x.DoCancel? || x.DoStream? || x.DoExpire? || x.DoRetire? || x.DoDrop?
    ensures PairsOk(n.With(e, Next(n.Side(e), x)))
  {
    var a := n.Side(e);
    match x
    case DoCancel(id) =>
      if OwnedBy(a, id) != {} {
        CommandStep(n, e, Least(OwnedBy(a, id)), CmdReset(Cancelled, a.config.text(OpenCancelled)));
      }
    case DoStream(s, c) => if s in a.streams { CommandStep(n, e, s, c); }
    case DoExpire(s, now) =>
      if s in a.streams {
        if Due(a.streams[s], now) { ExpireStep(n, e, s, now); } else { KeepStep(n, e, s); }
      }
    case DoRetire(s) => if s in a.streams { RetireStep(n, e, s); }
    case DoDrop(s) =>
      if s in a.streams { LeaveStep(n, e, s, StreamLost(a.streams[s].relay.owner, a.streams[s].progress)); }
  }

  lemma ActPairs(n: Net, e: Endpoint, x: Action)
    requires NetInv(n) && NetEnabled(n, Acts(e, x))
    ensures PairsOk(n.With(e, Next(n.Side(e), x))) && OpensAscend(n.With(e, Next(n.Side(e), x)).Handed(e))
  {
    match x
    case DoOpen(q, now) =>
      if OpenReplyFor(n.Side(e)).OpenDone? { OpenDoneStep(n, e, q, now); } else { OpenRefusedStep(n, e, q, now); }
    case DoPump(s) => if Pumpable(n.Side(e), s) { PumpStep(n, e, s); PumpAscends(n, e, s); }
    case DoPing(nonce) => CommitStep(n, e, Ping(nonce));
    case DoCloseWriter => CloseStep(n, e);
    case DoFail(_) => OutsideStep(n, e, x);
    case DoReserve(_) => OutsideStep(n, e, x);
    case DoRelease(_) => OutsideStep(n, e, x);
    case _ =>
      StreamActPairs(n, e, x);
      StreamActHanded(n, e, x);
  }

  lemma StreamActHanded(n: Net, e: Endpoint, x: Action)
    requires NetEnabled(n, Acts(e, x))
    requires x.DoCancel? || x.DoStream? || x.DoExpire? || x.DoRetire? || x.DoDrop?
    ensures n.With(e, Next(n.Side(e), x)).Handed(e) == n.Handed(e)
  {
    assert Next(n.Side(e), x).writer == n.Side(e).writer;
  }

  lemma RetireStep(n: Net, e: Endpoint, s: StreamId)
    requires SidesOk(n) && PairsOk(n) && s in n.Side(e).streams
    ensures PairsOk(n.With(e, RetireStream(n.Side(e), s)))
  {
    var owner := n.Side(e).streams[s].relay.owner;
    assert [] + [StreamEnded(owner)] == [StreamEnded(owner)];
    LeaveStep(n, e, s, StreamEnded(owner));
  }

  lemma KeepStep(n: Net, e: Endpoint, s: StreamId)
    requires SidesOk(n) && PairsOk(n) && s in n.Side(e).streams
    ensures PairsOk(n.With(e, Apply(n.Side(e), s, Keep(n.Side(e).streams[s]))))
  {
    Expose(n, e, s);
    var x := EndOf(n.Side(e), s);
    assert ActsAlone(x, EndAfter(x, Keep(n.Side(e).streams[s]), Initiator(s) == e), e != Initiator(s));
    ActsAloneStep(n, e, s, Keep(n.Side(e).streams[s]));
  }

  lemma StreamFrameWritesNothing(a: Actor, f: PeerFrame)
    requires !f.Open? && !f.ForTransport()
    ensures HandleFrame(a, f).writer == a.writer
  {
  }

  lemma DeliverStream(n: Net, e: Endpoint)
    requires NetInv(n) && NetEnabled(n, Delivers(e))
    requires !n.Wire(e.Opposite())[0].Open? && !n.Wire(e.Opposite())[0].ForTransport()
    ensures var b := HandleFrame(n.Side(e), n.Wire(e.Opposite())[0]);
            PairsOk(Received(n, e, b)) && Received(n, e, b).Handed(e) == n.Handed(e)
  {
    var f := n.Wire(e.Opposite())[0];
    StreamFrameWritesNothing(n.Side(e), f);
    if f.streamId in n.Side(e).streams { DeliverToLive(n, e, f.streamId, f); }
    else { DeliverToGone(n, e, f.streamId, f); }
  }

  lemma DeliverPairs(n: Net, e: Endpoint)
    requires NetInv(n) && NetEnabled(n, Delivers(e))
    ensures var m := NetNext(n, Delivers(e));
            PairsOk(m) && OpensAscend(m.Handed(e)) && OpensAscend(m.Handed(e.Opposite()))
  {
    var a := n.Side(e);
    var f := n.Wire(e.Opposite())[0];
    var b := HandleFrame(a, f);
    assert NetNext(n, Delivers(e)) == Received(n, e, b);
    DeliverAscends(n, e, b);
    if f.Open? {
      DeliverOpen(n, e, f);
    } else if f.ForTransport() {
      DeliverTransport(n, e, f);
    } else {
      DeliverStream(n, e);
    }
  }

  lemma SideReplaced(n: Net, m: Net, e: Endpoint, b: Actor)
    requires SidesOk(n) && Inv(b) && b.local == n.Side(e).local && b.config == n.Side(e).config
    requires m.dialer == n.With(e, b).dialer && m.acceptor == n.With(e, b).acceptor
    ensures SidesOk(m)
  {
  }

  /** The action a step amounts to at its own side. */
  function ActionOf(n: Net, x: NetStep): Action
    requires NetEnabled(n, x)
  {
    match x
    case Acts(_, action) => action
    case Transmits(_) => DoTransmit
    case Delivers(e) => DoReceive(n.Wire(e.Opposite())[0])
  }

  lemma SidesAfter(n: Net, x: NetStep)
    requires SidesOk(n) && NetEnabled(n, x)
    ensures SidesOk(NetNext(n, x))
  {
    var a, action := n.Side(x.e), ActionOf(n, x);
    NextInv(a, action);
    NextKeepsEndpoint(a, action);
    SideReplaced(n, NetNext(n, x), x.e, Next(a, action));
  }

  /** Every step of the pair keeps the invariant. */
  lemma NetNextInv(n: Net, x: NetStep)
    requires NetInv(n) && NetEnabled(n, x)
    ensures NetInv(NetNext(n, x))
  {
    SidesAfter(n, x);
    match x
    case Acts(e, action) => ActPairs(n, e, action);
    case Transmits(e) => TransmitStep(n, e);
    case Delivers(e) => DeliverPairs(n, e);
  }

  // -------------------------------------------------------------------- runs

  ghost predicate NetPossible(n: Net, run: seq<NetStep>)
    decreases |run|
  {
    run != [] ==> NetEnabled(n, run[0]) && NetPossible(NetNext(n, run[0]), run[1..])
  }

  function NetAfter(n: Net, run: seq<NetStep>): Net
    requires NetPossible(n, run)
    decreases |run|
  {
    if run == [] then n else NetAfter(NetNext(n, run[0]), run[1..])
  }

  lemma {:induction false} NetRunInv(n: Net, run: seq<NetStep>)
    requires NetInv(n) && NetPossible(n, run)
    ensures NetInv(NetAfter(n, run))
    decreases |run|
  {
    if run != [] {
      NetNextInv(n, run[0]);
      NetRunInv(NetNext(n, run[0]), run[1..]);
    }
  }

  /** Two freshly connected actors, with any configuration and any reservations. */
  ghost predicate Connected(n: Net) {
    && n.toAcceptor == [] && n.toDialer == []
    && n.dialer == NewActor(n.dialer.config, n.dialer.peerGateway, Dialer, n.dialer.activeOpens)
    && n.acceptor == NewActor(n.acceptor.config, n.acceptor.peerGateway, Acceptor, n.acceptor.activeOpens)
  }

  lemma FreshPair(n: Net, s: StreamId)
    requires Connected(n)
    ensures PairOk(PairOf(n, s))
  {
    var p := PairOf(n, s);
    assert Pipe(p.o, p.fwd) == [] && Pipe(p.r, p.bwd) == [];
  }

  lemma ConnectedInv(n: Net)
    requires Connected(n)
    ensures NetInv(n)
  {
    StartInv(n.dialer.config, n.dialer.peerGateway, Dialer, n.dialer.activeOpens);
    StartInv(n.acceptor.config, n.acceptor.peerGateway, Acceptor, n.acceptor.activeOpens);
    forall s ensures PairOk(PairOf(n, s)) { FreshPair(n, s); }
  }

  // ------------------------------------------------------------ what users see

  /** Payloads of the DATA events of stream `s`, in order. */
  function Delivered(h: seq<Record>, s: StreamId): seq<Bytes> {
    if h == [] then []
    else
      var last := h[|h| - 1];
      Delivered(h[..|h| - 1], s) +
        (if last.On? && last.s == s && last.note.Emitted? && last.note.event.DataEvent?
         then [last.note.event.payload] else [])
  }

  /** Payloads that `send_data` queued on stream `s`, in order. */
  function Promised(h: seq<Record>, s: StreamId): seq<Bytes> {
    if h == [] then []
    else
      var last := h[|h| - 1];
      Promised(h[..|h| - 1], s) + (if last.On? && last.s == s && last.note.Accepted? then [last.note.payload] else [])
  }

  predicate FinDelivered(h: seq<Record>, s: StreamId) { On(s, Emitted(FinEvent)) in h }

  predicate Violates(r: Record) { r.On? && (r.note == GuardRefused || r.note == ProtocolReset) }

  lemma {:induction false} SummaryTells(h: seq<Record>, s: StreamId, local: Endpoint)
    ensures Summarize(h, s, local).delivered == Delivered(h, s)
    ensures Summarize(h, s, local).accepted == Promised(h, s)
    ensures Summarize(h, s, local).finSeen <==> FinDelivered(h, s)
    ensures !Summarize(h, s, local).violated ==> forall i :: 0 <= i < |h| && h[i].On? && h[i].s == s ==> !Violates(h[i])
  {
    if h != [] {
      var init, last := h[..|h| - 1], h[|h| - 1];
      SummaryTells(init, s, local);
      assert h == init + [last];
      SummarizeAppend(init, last, s, local);
      assert Delivered(init, s) + [] == Delivered(init, s) && Promised(init, s) + [] == Promised(init, s);
    }
  }

  /**
   In every run of two connected actors, whatever commands, deadlines, flushes
   and writer failures occur on either side: each side's DATA events are an
   in-order prefix of what the other side's `send_data` accepted, and once the
   FIN event has appeared they are all of it.
   */
  lemma DataArrivesInOrder(start: Net, run: seq<NetStep>, e: Endpoint, s: StreamId)
    requires Connected(start) && NetPossible(start, run)
    ensures var n := NetAfter(start, run);
            var got := Delivered(n.Side(e).history, s);
            var sent := Promised(n.Side(e.Opposite()).history, s);
            got <= sent && (FinDelivered(n.Side(e).history, s) ==> got == sent)
  {
    ConnectedInv(start);
    NetRunInv(start, run);
    var n := NetAfter(start, run);
    assert PairOk(PairOf(n, s));
    SummaryTells(n.Side(e).history, s, e);
    SummaryTells(n.Side(e.Opposite()).history, s, e.Opposite());
  }

  /** ... no OPEN is refused by the StreamId guard and no frame is a protocol violation. */
  lemma NobodyBreaksTheProtocol(start: Net, run: seq<NetStep>, e: Endpoint, i: nat)
    requires Connected(start) && NetPossible(start, run) && i < |NetAfter(start, run).Side(e).history|
    ensures !Violates(NetAfter(start, run).Side(e).history[i])
  {
    ConnectedInv(start);
    NetRunInv(start, run);
    var n := NetAfter(start, run);
    var r := n.Side(e).history[i];
    if r.On? {
      assert PairOk(PairOf(n, r.s));
      SummaryTells(n.Side(e).history, r.s, e);
    }
  }

  /** ... and nothing is lost: once a stream that both ends still use has drained, all of it has arrived. */
  lemma DrainedMeansDelivered(start: Net, run: seq<NetStep>, e: Endpoint, s: StreamId)
    requires Connected(start) && NetPossible(start, run)
    requires var n := NetAfter(start, run); var x := n.Side(e.Opposite()); var y := n.Side(e);
             && s in x.streams && x.streams[s].queue == [] && !x.writerClosed
             && s in y.streams && !y.streams[s].terminalQueued
             && forall f :: f in n.Handed(e.Opposite()) ==> !f.OnStream(s)
    ensures var n := NetAfter(start, run);
            Delivered(n.Side(e).history, s) == Promised(n.Side(e.Opposite()).history, s)
  {
    ConnectedInv(start);
    NetRunInv(start, run);
    var n := NetAfter(start, run);
    NoneOfStream(n.Handed(e.Opposite()), s);
    DrainedSummaries(n, e, s);
    SummaryTells(n.Side(e).history, s, e);
    SummaryTells(n.Side(e.Opposite()).history, s, e.Opposite());
  }

  lemma DrainedSummaries(n: Net, e: Endpoint, s: StreamId)
    requires NetInv(n) && OfStream(n.Handed(e.Opposite()), s) == []
    requires var x := n.Side(e.Opposite()); var y := n.Side(e);
             && s in x.streams && x.streams[s].queue == [] && !x.writerClosed
             && s in y.streams && !y.streams[s].terminalQueued
    ensures n.Side(e).local == e && n.Side(e.Opposite()).local == e.Opposite()
    ensures Summarize(n.Side(e).history, s, e).delivered ==
             Summarize(n.Side(e.Opposite()).history, s, e.Opposite()).accepted
  {
    var p := PairOf(n, s);
    assert PairOk(p);
    Expose(n, e, s);
    Expose(n, e.Opposite(), s);
    if e == Initiator(s) { EmptyPipe(p.r, p.o, p.bwd, true); } else { EmptyPipe(p.o, p.r, p.fwd, false); }
  }

  lemma EmptyPipe(x: StreamEnd, y: StreamEnd, handed: seq<PeerFrame>, toOpener: bool)
    requires Flow(x, y, toOpener, Pipe(x, handed)) && handed == []
    requires x.here.Some? && x.here.value.queue == [] && !x.closed && y.Stage() != Deaf
    ensures y.sum.delivered == x.sum.accepted
  {
    assert Pipe(x, handed) == [];
  }

  lemma NoneOfStream(fs: seq<PeerFrame>, s: StreamId)
    requires forall f :: f in fs ==> !f.OnStream(s)
    ensures OfStream(fs, s) == []
  {
  }
}
