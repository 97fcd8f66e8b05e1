/** Two transport actors joined by ordered, lossless wires. */
module PeerNetwork {
  import opened Common
  import opened PeerFrames
  import opened PeerActor
  import opened PeerLifecycle
  import opened PeerLane
  import opened PeerPair

  /** `toAcceptor` and `toDialer` hold the frames on the wire in each direction. */
  datatype Net = Net(dialer: Actor, acceptor: Actor, toAcceptor: seq<PeerFrame>, toDialer: seq<PeerFrame>)
  {
    function Side(e: Endpoint): Actor { if e == Dialer then dialer else acceptor }

    /** The wire endpoint `e` sends on. */
    function Wire(e: Endpoint): seq<PeerFrame> { if e == Dialer then toAcceptor else toDialer }

    function With(e: Endpoint, a: Actor): Net { if e == Dialer then this.(dialer := a) else this.(acceptor := a) }

    function WithWire(e: Endpoint, w: seq<PeerFrame>): Net {
      if e == Dialer then this.(toAcceptor := w) else this.(toDialer := w)
    }

    /** Everything `e` has handed to its writer and the other side has not received. */
    function Handed(e: Endpoint): seq<PeerFrame> { Wire(e) + Side(e).writer }
  }

  datatype NetStep =
    | Acts(e: Endpoint, x: Action)   // a command, deadline, flush or environment action at `e`
    | Transmits(e: Endpoint)         // the writer task of `e` puts its oldest frame on the wire
    | Delivers(e: Endpoint)          // `e` reads the oldest frame addressed to it

  predicate NetEnabled(n: Net, x: NetStep) {
    match x
    case Acts(e, action) => Enabled(n.Side(e), action) && !action.DoReceive? && !action.DoTransmit?
    case Transmits(e) => n.Side(e).writer != []
    case Delivers(e) => n.Wire(e.Opposite()) != []
  }

  function NetNext(n: Net, x: NetStep): Net
    requires NetEnabled(n, x)
  {
    match x
    case Acts(e, action) => n.With(e, Next(n.Side(e), action))
    case Transmits(e) =>
      n.With(e, Next(n.Side(e), DoTransmit)).WithWire(e, n.Wire(e) + [n.Side(e).writer[0]])
    case Delivers(e) =>
      var wire := n.Wire(e.Opposite());
      n.With(e, HandleFrame(n.Side(e), wire[0])).WithWire(e.Opposite(), wire[1..])
  }

  // -------------------------------------------------------- streams of a net

  function OfStream(fs: seq<PeerFrame>, s: StreamId): seq<PeerFrame> {
    if fs == [] then []
    else (if fs[0].OnStream(s) then [fs[0]] else []) + OfStream(fs[1..], s)
  }

  lemma {:induction false} OfStreamConcat(p: seq<PeerFrame>, q: seq<PeerFrame>, s: StreamId)
    ensures OfStream(p + q, s) == OfStream(p, s) + OfStream(q, s)
  {
    if p == [] {
      assert p + q == q;
    } else {
      OfStreamConcat(p[1..], q, s);
      var head := if p[0].OnStream(s) then [p[0]] else [];
      assert (p + q)[0] == p[0] && (p + q)[1..] == p[1..] + q;
      assert OfStream(p + q, s) == head + (OfStream(p[1..], s) + OfStream(q, s));
      assert OfStream(p, s) == head + OfStream(p[1..], s);
      assert head + (OfStream(p[1..], s) + OfStream(q, s)) == head + OfStream(p[1..], s) + OfStream(q, s);
    }
  }

  lemma OfStreamAppend(p: seq<PeerFrame>, f: PeerFrame, s: StreamId)
    ensures OfStream(p + [f], s) == OfStream(p, s) + (if f.OnStream(s) then [f] else [])
  {
    OfStreamConcat(p, [f], s);
    assert [f][1..] == [];
  }

  lemma {:induction false} OfStreamFinds(p: seq<PeerFrame>, s: StreamId, i: nat) returns (j: nat)
    requires i < |p| && p[i].OnStream(s)
    ensures j < |OfStream(p, s)| && OfStream(p, s)[j] == p[i]
  {
    if i == 0 {
      j := 0;
    } else {
      j := OfStreamFinds(p[1..], s, i - 1);
      if p[0].OnStream(s) { j := j + 1; }
    }
  }

  lemma {:induction false} OfStreamOnly(p: seq<PeerFrame>, s: StreamId, j: nat) returns (i: nat)
    requires j < |OfStream(p, s)|
    ensures i < |p| && p[i] == OfStream(p, s)[j] && p[i].OnStream(s)
  {
    if p[0].OnStream(s) && j == 0 {
      i := 0;
    } else {
      i := OfStreamOnly(p[1..], s, if p[0].OnStream(s) then j - 1 else j);
      i := i + 1;
    }
  }

  function EndOf(a: Actor, s: StreamId): StreamEnd {
    StreamEnd(a.local, if s in a.streams then Some(a.streams[s]) else None, Fresh(a, s), a.writerClosed, View(a, s))
  }

  function PairOf(n: Net, s: StreamId): Pair {
    var e := Initiator(s);
    Pair(EndOf(n.Side(e), s), EndOf(n.Side(e.Opposite()), s),
         OfStream(n.Handed(e), s), OfStream(n.Handed(e.Opposite()), s))
  }

  /** OPEN frames carry strictly ascending counters in the order they were handed over. */
  ghost predicate OpensAscend(fs: seq<PeerFrame>) {
    forall i, j :: 0 <= i < j < |fs| && fs[i].Open? && fs[j].Open? ==>
      Counter(fs[i].streamId) < Counter(fs[j].streamId)
  }

  ghost predicate PairsOk(n: Net) { forall s :: PairOk(PairOf(n, s)) }

  predicate Oriented(n: Net) { n.dialer.local == Dialer && n.acceptor.local == Acceptor }

  ghost predicate SidesOk(n: Net) { Oriented(n) && Inv(n.dialer) && Inv(n.acceptor) }

  ghost predicate NetInv(n: Net) {
    SidesOk(n) && PairsOk(n) && OpensAscend(n.Handed(Dialer)) && OpensAscend(n.Handed(Acceptor))
  }

  // --------------------------------------------------- what actions leave alone

  lemma ApplyEnd(a: Actor, s: StreamId, e: Effect, t: StreamId)
    requires s in a.streams
    ensures EndOf(Apply(a, s, e), t) ==
            if t == s then EndAfter(EndOf(a, s), e, Initiator(s) == a.local) else EndOf(a, t)
  {
    SummarizeNotes(a.history, s, e.notes, t, a.local);
  }

  /** Replacing one side and what it has handed over changes a pair only there. */
  lemma PairMoves(n: Net, m: Net, e: Endpoint, s: StreamId)
    requires m.Side(e.Opposite()) == n.Side(e.Opposite()) && m.Wire(e.Opposite()) == n.Wire(e.Opposite())
    ensures PairOf(m, s) ==
            if e == Initiator(s) then PairOf(n, s).(o := EndOf(m.Side(e), s), fwd := OfStream(m.Handed(e), s))
            else PairOf(n, s).(r := EndOf(m.Side(e), s), bwd := OfStream(m.Handed(e), s))
  {
  }

  /** The part of the invariant an action at `e` on stream `s` relies on. */
  lemma Expose(n: Net, e: Endpoint, s: StreamId)
    requires SidesOk(n)
    ensures n.Side(e).local == e && Inv(n.Side(e))
    ensures s in n.Side(e).streams ==>
              && StreamOk(e, n.Side(e).config.streamQueueCapacity, s, n.Side(e).streams[s])
              && !Fresh(n.Side(e), s)
  {
  }

  /** Only stream `s` is seen differently from side `e`. */
  ghost predicate OnlyAt(n: Net, m: Net, e: Endpoint, s: StreamId) {
    && m.Side(e.Opposite()) == n.Side(e.Opposite()) && m.Wire(e.Opposite()) == n.Wire(e.Opposite())
    && (forall t :: t != s ==> EndOf(m.Side(e), t) == EndOf(n.Side(e), t))
    && (forall t :: t != s ==> OfStream(m.Handed(e), t) == OfStream(n.Handed(e), t))
  }

  lemma OtherPairs(n: Net, m: Net, e: Endpoint, s: StreamId)
    requires PairsOk(n) && OnlyAt(n, m, e, s) && PairOk(PairOf(m, s))
    ensures PairsOk(m)
  {
    forall t ensures PairOk(PairOf(m, t)) {
      if t != s {
        PairMoves(n, m, e, t);
        assert PairOk(PairOf(n, t));
      }
    }
  }

  lemma ApplyOnlyAt(n: Net, e: Endpoint, s: StreamId, effect: Effect)
    requires s in n.Side(e).streams
    ensures OnlyAt(n, n.With(e, Apply(n.Side(e), s, effect)), e, s)
  {
    var a := n.Side(e);
    forall t | t != s ensures EndOf(Apply(a, s, effect), t) == EndOf(a, t) { ApplyEnd(a, s, effect, t); }
  }

  lemma ActsAloneStep(n: Net, e: Endpoint, s: StreamId, effect: Effect)
    requires PairsOk(n) && s in n.Side(e).streams && n.Side(e).local == e
    requires RelayOk(n.Side(e).streams[s].relay)
    requires ActsAlone(EndOf(n.Side(e), s), EndAfter(EndOf(n.Side(e), s), effect, Initiator(s) == e), e != Initiator(s))
    ensures PairsOk(n.With(e, Apply(n.Side(e), s, effect)))
  {
    var a := n.Side(e);
    var m := n.With(e, Apply(a, s, effect));
    ApplyEnd(a, s, effect, s);
    PairMoves(n, m, e, s);
    assert PairOk(PairOf(n, s));
    if e == Initiator(s) {
      OpenerActs(PairOf(n, s), EndOf(m.Side(e), s));
    } else {
      ResponderActs(PairOf(n, s), EndOf(m.Side(e), s));
    }
    ApplyOnlyAt(n, e, s, effect);
    OtherPairs(n, m, e, s);
  }

  lemma CommandStep(n: Net, e: Endpoint, s: StreamId, c: StreamCommand)
    requires SidesOk(n) && PairsOk(n) && s in n.Side(e).streams
    ensures var a := n.Side(e); PairsOk(n.With(e, Apply(a, s, CommandOn(a.config, a.local, s, a.streams[s], c))))
  {
    var a := n.Side(e);
    Expose(n, e, s);
    CommandActs(a.config, EndOf(a, s), s, c);
    ActsAloneStep(n, e, s, CommandOn(a.config, a.local, s, a.streams[s], c));
  }

  lemma ExpireStep(n: Net, e: Endpoint, s: StreamId, now: Instant)
    requires SidesOk(n) && PairsOk(n) && s in n.Side(e).streams && Due(n.Side(e).streams[s], now)
    ensures var a := n.Side(e); PairsOk(n.With(e, Apply(a, s, ExpireOn(a.config, s, a.streams[s]))))
  {
    var a := n.Side(e);
    Expose(n, e, s);
    ExpireActs(a.config, EndOf(a, s), s, now);
    ActsAloneStep(n, e, s, ExpireOn(a.config, s, a.streams[s]));
  }

  lemma StopStep(n: Net, m: Net, e: Endpoint, s: StreamId)
    requires PairOk(PairOf(n, s))
    requires m.Side(e.Opposite()) == n.Side(e.Opposite()) && m.Wire(e.Opposite()) == n.Wire(e.Opposite())
    requires Stops(EndOf(n.Side(e), s), EndOf(m.Side(e), s), OfStream(n.Handed(e), s), OfStream(m.Handed(e), s))
    ensures PairOk(PairOf(m, s))
  {
    PairMoves(n, m, e, s);
    if e == Initiator(s) {
      OpenerStops(PairOf(n, s), EndOf(m.Side(e), s), OfStream(m.Handed(e), s));
    } else {
      ResponderStops(PairOf(n, s), EndOf(m.Side(e), s), OfStream(m.Handed(e), s));
    }
  }

  /** A stream leaves without a frame having arrived. */
  lemma LeaveStep(n: Net, e: Endpoint, s: StreamId, note: Note)
    requires SidesOk(n) && PairsOk(n) && s in n.Side(e).streams
    requires note.StreamEnded? || note.StreamLost?
    ensures PairsOk(n.With(e, Apply(n.Side(e), s, Effect(None, [note], false, Done))))
  {
    var a := n.Side(e);
    var effect := Effect(None, [note], false, Done);
    var m := n.With(e, Apply(a, s, effect));
    Expose(n, e, s);
    ApplyEnd(a, s, effect, s);
    OneNote(View(a, s), note, Initiator(s) == a.local);
    assert PairOk(PairOf(n, s));
    StopStep(n, m, e, s);
    ApplyOnlyAt(n, e, s, effect);
    OtherPairs(n, m, e, s);
  }

  lemma AscendAppend(fs: seq<PeerFrame>, f: PeerFrame)
    requires OpensAscend(fs) && !f.Open?
    ensures OpensAscend(fs + [f])
  {
  }

  lemma HandedAppend(n: Net, e: Endpoint, a: Actor, f: PeerFrame, s: StreamId)
    requires a.writer == n.Side(e).writer + [f]
    ensures n.With(e, a).Handed(e) == n.Handed(e) + [f]
    ensures OfStream(n.With(e, a).Handed(e), s) == OfStream(n.Handed(e), s) + (if f.OnStream(s) then [f] else [])
  {
    assert n.With(e, a).Handed(e) == n.Handed(e) + [f];
    OfStreamAppend(n.Handed(e), f, s);
  }

  function Popped(a: Actor, s: StreamId): Effect
    requires Pumpable(a, s)
  {
    Keep(a.streams[s].(queue := a.streams[s].queue[1..])).(failed := WriterVerdict(a) == Closed)
  }

  lemma PumpEnd(a: Actor, s: StreamId, t: StreamId)
    requires Pumpable(a, s)
    ensures EndOf(PumpStream(a, s), t) ==
            if t == s then EndAfter(EndOf(a, s), Popped(a, s), Initiator(s) == a.local) else EndOf(a, t)
  {
    ApplyEnd(a, s, Popped(a, s), t);
    assert EndOf(PumpStream(a, s), t) == EndOf(Apply(a, s, Popped(a, s)), t);
  }

  lemma PumpHanded(n: Net, e: Endpoint, s: StreamId, t: StreamId)
    requires Pumpable(n.Side(e), s) && n.Side(e).streams[s].queue[0].OnStream(s)
    ensures var a := n.Side(e);
            OfStream(n.With(e, PumpStream(a, s)).Handed(e), t) ==
              if a.writerClosed || t != s then OfStream(n.Handed(e), t)
              else OfStream(n.Handed(e), t) + [a.streams[s].queue[0]]
  {
    var a := n.Side(e);
    if !a.writerClosed { HandedAppend(n, e, PumpStream(a, s), a.streams[s].queue[0], t); }
  }

  lemma PumpStep(n: Net, e: Endpoint, s: StreamId)
    requires SidesOk(n) && PairsOk(n) && Pumpable(n.Side(e), s)
    ensures PairsOk(n.With(e, PumpStream(n.Side(e), s)))
  {
    var a := n.Side(e);
    var m := n.With(e, PumpStream(a, s));
    Expose(n, e, s);
    forall t ensures t != s ==> EndOf(m.Side(e), t) == EndOf(a, t) { PumpEnd(a, s, t); }
    forall t ensures t != s ==> OfStream(m.Handed(e), t) == OfStream(n.Handed(e), t) { PumpHanded(n, e, s, t); }
    PumpPair(n, e, s);
    OtherPairs(n, m, e, s);
  }

  lemma PumpPair(n: Net, e: Endpoint, s: StreamId)
    requires PairsOk(n) && Pumpable(n.Side(e), s) && n.Side(e).local == e && !Fresh(n.Side(e), s)
    requires StreamOk(e, n.Side(e).config.streamQueueCapacity, s, n.Side(e).streams[s])
    ensures PairOk(PairOf(n.With(e, PumpStream(n.Side(e), s)), s))
  {
    var a := n.Side(e);
    var m := n.With(e, PumpStream(a, s));
    assert PairOk(PairOf(n, s));
    PumpEnd(a, s, s);
    PumpHanded(n, e, s, s);
    PairMoves(n, m, e, s);
    if e == Initiator(s) {
      OpenerPumps(PairOf(n, s), EndOf(m.Side(e), s), OfStream(m.Handed(e), s));
    } else {
      ResponderPumps(PairOf(n, s), EndOf(m.Side(e), s), OfStream(m.Handed(e), s));
    }
  }

  lemma PumpAscends(n: Net, e: Endpoint, s: StreamId)
    requires SidesOk(n) && Pumpable(n.Side(e), s) && OpensAscend(n.Handed(e))
    ensures OpensAscend(n.With(e, PumpStream(n.Side(e), s)).Handed(e))
  {
    var a := n.Side(e);
    Expose(n, e, s);
    if !a.writerClosed {
      HandedAppend(n, e, PumpStream(a, s), a.streams[s].queue[0], s);
      AscendAppend(n.Handed(e), a.streams[s].queue[0]);
    }
  }

  /** Nothing about any stream changed at `e`. */
  lemma SameEverywhere(n: Net, m: Net, e: Endpoint)
    requires PairsOk(n)
    requires m.Side(e.Opposite()) == n.Side(e.Opposite()) && m.Wire(e.Opposite()) == n.Wire(e.Opposite())
    requires forall t :: EndOf(m.Side(e), t) == EndOf(n.Side(e), t)
    requires forall t :: OfStream(m.Handed(e), t) == OfStream(n.Handed(e), t)
    ensures PairsOk(m)
  {
    forall t ensures PairOk(PairOf(m, t)) {
      PairMoves(n, m, e, t);
      assert PairOk(PairOf(n, t));
    }
  }

  lemma CommitStep(n: Net, e: Endpoint, f: PeerFrame)
    requires PairsOk(n) && OpensAscend(n.Handed(e)) && f.ForTransport()
    ensures PairsOk(n.With(e, Commit(n.Side(e), f))) && OpensAscend(n.With(e, Commit(n.Side(e), f)).Handed(e))
  {
    var a := n.Side(e);
    var m := n.With(e, Commit(a, f));
    if WriterVerdict(a) == Sent {
      forall t ensures OfStream(m.Handed(e), t) == OfStream(n.Handed(e), t) { HandedAppend(n, e, Commit(a, f), f, t); }
      HandedAppend(n, e, Commit(a, f), f, 0);
      AscendAppend(n.Handed(e), f);
    }
    SameEverywhere(n, m, e);
  }

  lemma OutsideStep(n: Net, e: Endpoint, x: Action)
    requires PairsOk(n) && Enabled(n.Side(e), x) && (x.DoFail? || x.DoReserve? || x.DoRelease?)
    ensures PairsOk(n.With(e, Next(n.Side(e), x))) && n.With(e, Next(n.Side(e), x)).Handed(e) == n.Handed(e)
  {
    SameEverywhere(n, n.With(e, Next(n.Side(e), x)), e);
  }

  lemma CloseStep(n: Net, e: Endpoint)
    requires PairsOk(n) && OpensAscend(n.Handed(e))
    ensures PairsOk(n.With(e, Next(n.Side(e), DoCloseWriter)))
    ensures OpensAscend(n.With(e, Next(n.Side(e), DoCloseWriter)).Handed(e))
  {
    var a := n.Side(e);
    var m := n.With(e, Next(a, DoCloseWriter));
    assert m.Handed(e) == n.Wire(e);
    forall t ensures PairOk(PairOf(m, t)) {
      assert PairOk(PairOf(n, t));
      OfStreamConcat(n.Wire(e), a.writer, t);
      StopStep(n, m, e, t);
    }
    assert forall i :: 0 <= i < |n.Wire(e)| ==> n.Handed(e)[i] == n.Wire(e)[i];
  }

  lemma TransmitStep(n: Net, e: Endpoint)
    requires PairsOk(n) && n.Side(e).writer != []
    ensures NetNext(n, Transmits(e)).Handed(e) == n.Handed(e) && PairsOk(NetNext(n, Transmits(e)))
  {
    var writer := n.Side(e).writer;
    assert writer == [writer[0]] + writer[1..];
    assert NetNext(n, Transmits(e)).Handed(e) == n.Handed(e);
    SameEverywhere(n, NetNext(n, Transmits(e)), e);
  }

  // ------------------------------------------------------------------ opening

  lemma {:induction false} NoOpenInside(v: Stage, toOpener: bool, p: seq<PeerFrame>, i: nat)
    requires AllAcceptable(v, toOpener, p) && i < |p| && (v != Unknown || toOpener || i > 0)
    ensures !p[i].Open?
    decreases |p|
  {
    if i > 0 { NoOpenInside(StageAfter(v, p[0]), toOpener, p[1..], i - 1); }
  }

  /** An OPEN under way was opened by its sender, and its receiver has not seen it. */
  lemma OpenUnderWay(n: Net, e: Endpoint, i: nat)
    requires Oriented(n) && PairsOk(n) && i < |n.Handed(e)| && n.Handed(e)[i].Open?
    ensures var s := n.Handed(e)[i].streamId;
            && Initiator(s) == e && Counter(s) < n.Side(e).nextCounter
            && s !in n.Side(e.Opposite()).streams && Fresh(n.Side(e.Opposite()), s)
  {
    var f := n.Handed(e)[i];
    var s := f.streamId;
    var p := PairOf(n, s);
    assert PairOk(p);
    var j := OfStreamFinds(n.Handed(e), s, i);
    if Initiator(s) != e {
      assert Pipe(p.r, p.bwd)[j] == f;
      NoOpenInside(p.o.Stage(), true, Pipe(p.r, p.bwd), j);
    } else {
      assert Pipe(p.o, p.fwd)[j] == f;
      if p.r.Stage() != Unknown { NoOpenInside(p.r.Stage(), false, Pipe(p.o, p.fwd), j); }
    }
  }

  lemma OpenAscends(n: Net, e: Endpoint, f: PeerFrame)
    requires Oriented(n) && PairsOk(n) && OpensAscend(n.Handed(e))
    requires f.Open? && Counter(f.streamId) == n.Side(e).nextCounter
    ensures OpensAscend(n.Handed(e) + [f])
  {
    var fs := n.Handed(e) + [f];
    forall i, j | 0 <= i < j < |fs| && fs[i].Open? && fs[j].Open?
      ensures Counter(fs[i].streamId) < Counter(fs[j].streamId)
    {
      assert fs[i] == n.Handed(e)[i];
      if j == |fs| - 1 { OpenUnderWay(n, e, i); } else { assert fs[j] == n.Handed(e)[j]; }
    }
  }

  /** The identifier the next OPEN will use. */
  function NextId(a: Actor): StreamId
    requires a.nextCounter <= MAX_COUNTER
  {
    MakeId(a.local, a.nextCounter)
  }

  lemma OnlyNextIdUsed(a: Actor, t: StreamId)
    requires a.nextCounter <= MAX_COUNTER && t != NextId(a)
    ensures FreshId(a.local, a.nextCounter + 1, a.highest, t) == Fresh(a, t)
  {
  }

  lemma OpenDoneEnd(a: Actor, q: OpenRequest, now: Instant, t: StreamId)
    requires OpenReplyFor(a).OpenDone?
    ensures t != NextId(a) ==> EndOf(OpenStream(a, q, now), t) == EndOf(a, t)
    ensures var w := EndOf(OpenStream(a, q, now), NextId(a));
            && w.here == Some(OpeningStream(q.openIdentity, Local, Some(now + a.config.openResponseTimeout)))
            && w.me == a.local && !w.unused && w.closed == a.writerClosed
            && w.sum == SummaryAfter(View(a, NextId(a)), Inserted(q.openIdentity), true)
  {
    var s := NextId(a);
    if t != s { OnlyNextIdUsed(a, t); }
    SummarizeNotes(a.history, s, [Inserted(q.openIdentity)], t, a.local);
    SummarizeNotes(a.history, s, [Inserted(q.openIdentity)], s, a.local);
    OneNote(View(a, s), Inserted(q.openIdentity), true);
  }

  /** A new stream at its opener, together with its OPEN frame. */
  lemma NewPair(n: Net, e: Endpoint, b: Actor, s: StreamId, f: PeerFrame)
    requires PairOk(PairOf(n, s)) && Initiator(s) == e && f.Open? && f.OnStream(s)
    requires EndOf(n.Side(e), s).unused && b.writer == n.Side(e).writer + [f]
    requires var w := EndOf(b, s);
             && w.here.Some? && w.here.value.relay.phase == Opening && !w.here.value.terminalQueued && !w.OwnFin()
             && w.here.value.queue == [] && !w.unused && !w.closed && w.me == EndOf(n.Side(e), s).me
             && w.sum.delivered == View(n.Side(e), s).delivered && w.sum.accepted == View(n.Side(e), s).accepted
             && w.sum.finSeen == View(n.Side(e), s).finSeen && w.sum.violated == View(n.Side(e), s).violated
    ensures PairOk(PairOf(n.With(e, b), s))
  {
    OpenHanded(n, e, b, s, f);
    OpenerOpens(PairOf(n, s), EndOf(b, s), f);
  }

  lemma OpenHanded(n: Net, e: Endpoint, b: Actor, s: StreamId, f: PeerFrame)
    requires Initiator(s) == e && f.OnStream(s) && b.writer == n.Side(e).writer + [f]
    ensures var p := PairOf(n, s);
            p.fwd == [] ==> PairOf(n.With(e, b), s) == p.(o := EndOf(b, s), fwd := [f])
  {
    HandedAppend(n, e, b, f, s);
    PairMoves(n, n.With(e, b), e, s);
  }

  lemma OpenDonePair(n: Net, e: Endpoint, q: OpenRequest, now: Instant)
    requires Oriented(n) && PairsOk(n) && OpenReplyFor(n.Side(e)).OpenDone?
    ensures PairOk(PairOf(n.With(e, OpenStream(n.Side(e), q, now)), NextId(n.Side(e))))
  {
    var a := n.Side(e);
    var s := NextId(a);
    assert PairOk(PairOf(n, s));
    OpenDoneEnd(a, q, now, s);
    NewPair(n, e, OpenStream(a, q, now), s, Open(s, q.openIdentity, q.destination, q.relaySessionId, q.bindingId));
  }

  lemma OpenDoneStep(n: Net, e: Endpoint, q: OpenRequest, now: Instant)
    requires Oriented(n) && PairsOk(n) && OpensAscend(n.Handed(e)) && OpenReplyFor(n.Side(e)).OpenDone?
    ensures PairsOk(n.With(e, OpenStream(n.Side(e), q, now)))
    ensures OpensAscend(n.With(e, OpenStream(n.Side(e), q, now)).Handed(e))
  {
    var a := n.Side(e);
    var s := NextId(a);
    var b := OpenStream(a, q, now);
    var m := n.With(e, b);
    var f := Open(s, q.openIdentity, q.destination, q.relaySessionId, q.bindingId);
    forall t ensures t != s ==> EndOf(b, t) == EndOf(a, t) { OpenDoneEnd(a, q, now, t); }
    forall t ensures t != s ==> OfStream(m.Handed(e), t) == OfStream(n.Handed(e), t) { HandedAppend(n, e, b, f, t); }
    OpenDonePair(n, e, q, now);
    OtherPairs(n, m, e, s);
    HandedAppend(n, e, b, f, s);
    OpenAscends(n, e, f);
  }

  lemma OpenRefusedEnd(a: Actor, q: OpenRequest, now: Instant, t: StreamId)
    requires OpenReplyFor(a).OpenRefused?
    ensures var b := OpenStream(a, q, now);
            EndOf(b, t) == EndOf(a, t).(unused :=
              if b.nextCounter > a.nextCounter && t == NextId(a) then false else EndOf(a, t).unused)
  {
    SummarizeAppend(a.history, AttemptEnded(q.openIdentity), t, a.local);
    if OpenStream(a, q, now).nextCounter > a.nextCounter && t != NextId(a) { OnlyNextIdUsed(a, t); }
  }

  lemma OpenRefusedStep(n: Net, e: Endpoint, q: OpenRequest, now: Instant)
    requires Oriented(n) && PairsOk(n) && OpenReplyFor(n.Side(e)).OpenRefused?
    ensures PairsOk(n.With(e, OpenStream(n.Side(e), q, now)))
    ensures n.With(e, OpenStream(n.Side(e), q, now)).Handed(e) == n.Handed(e)
  {
    var a := n.Side(e);
    var m := n.With(e, OpenStream(a, q, now));
    forall t ensures PairOk(PairOf(m, t)) {
      OpenRefusedEnd(a, q, now, t);
      PairMoves(n, m, e, t);
      assert PairOk(PairOf(n, t));
      if m.Side(e).nextCounter > a.nextCounter && t == NextId(a) { OpenerSkips(PairOf(n, t)); }
    }
  }

  // ---------------------------------------------------------------- delivery

  /** Side `e` became `b` after the head of the wire towards it was taken off. */
  function Received(n: Net, e: Endpoint, b: Actor): Net
    requires n.Wire(e.Opposite()) != []
  {
    n.With(e, b).WithWire(e.Opposite(), n.Wire(e.Opposite())[1..])
  }

  lemma ReceivedHanded(n: Net, e: Endpoint, b: Actor, t: StreamId)
    requires n.Wire(e.Opposite()) != []
    ensures var f := n.Wire(e.Opposite())[0];
            && n.Handed(e.Opposite()) == [f] + Received(n, e, b).Handed(e.Opposite())
            && OfStream(n.Handed(e.Opposite()), t) ==
               (if f.OnStream(t) then [f] else []) + OfStream(Received(n, e, b).Handed(e.Opposite()), t)
  {
    var rest := Received(n, e, b).Handed(e.Opposite());
    var f := n.Wire(e.Opposite())[0];
    assert n.Handed(e.Opposite()) == [f] + rest;
    assert ([f] + rest)[1..] == rest;
  }

  lemma ReceivedPair(n: Net, e: Endpoint, b: Actor, s: StreamId)
    requires n.Wire(e.Opposite()) != []
    ensures var m := Received(n, e, b);
            PairOf(m, s) ==
              if e == Initiator(s) then
                Pair(EndOf(b, s), PairOf(n, s).r, OfStream(m.Handed(e), s), OfStream(m.Handed(e.Opposite()), s))
              else
                Pair(PairOf(n, s).o, EndOf(b, s), OfStream(m.Handed(e.Opposite()), s), OfStream(m.Handed(e), s))
  {
  }

  /** The frame's stream is deaf here: the frame is dropped. */
  lemma DeafPair(n: Net, e: Endpoint, s: StreamId)
    requires n.Wire(e.Opposite()) != [] && n.Wire(e.Opposite())[0].OnStream(s)
    requires PairOk(PairOf(n, s)) && EndOf(n.Side(e), s).Stage() == Deaf
    ensures PairOk(PairOf(Received(n, e, n.Side(e)), s))
  {
    var a := n.Side(e);
    var m := Received(n, e, a);
    var f := n.Wire(e.Opposite())[0];
    ReceivedHanded(n, e, a, s);
    ReceivedPair(n, e, a, s);
    var rest := OfStream(m.Handed(e.Opposite()), s);
    if e == Initiator(s) { OpenerDeaf(PairOf(n, s), f, rest); } else { ResponderDeaf(PairOf(n, s), f, rest); }
  }

  lemma OthersReceive(n: Net, e: Endpoint, b: Actor, s: StreamId)
    requires n.Wire(e.Opposite()) != []
    requires !n.Wire(e.Opposite())[0].ForTransport() ==> n.Wire(e.Opposite())[0].OnStream(s)
    requires forall t :: t != s ==> EndOf(b, t) == EndOf(n.Side(e), t)
    requires forall t :: t != s ==> OfStream(n.With(e, b).Handed(e), t) == OfStream(n.Handed(e), t)
    requires PairsOk(n) && PairOk(PairOf(Received(n, e, b), s))
    ensures PairsOk(Received(n, e, b))
  {
    var m := Received(n, e, b);
    assert m.Handed(e) == n.With(e, b).Handed(e);
    forall t ensures PairOk(PairOf(m, t)) {
      if t != s {
        assert PairOk(PairOf(n, t));
        OtherReceives(n, e, b, s, t);
      }
    }
  }

  lemma OtherReceives(n: Net, e: Endpoint, b: Actor, s: StreamId, t: StreamId)
    requires n.Wire(e.Opposite()) != [] && t != s
    requires !n.Wire(e.Opposite())[0].ForTransport() ==> n.Wire(e.Opposite())[0].OnStream(s)
    requires EndOf(b, t) == EndOf(n.Side(e), t)
    requires OfStream(Received(n, e, b).Handed(e), t) == OfStream(n.Handed(e), t)
    ensures PairOf(Received(n, e, b), t) == PairOf(n, t)
  {
    ReceivedHanded(n, e, b, t);
    ReceivedPair(n, e, b, t);
  }

  /** A frame for a stream that this side still listens on. */
  lemma LivePair(n: Net, e: Endpoint, s: StreamId, f: PeerFrame, b: Actor)
    requires n.Wire(e.Opposite()) != [] && f == n.Wire(e.Opposite())[0] && f.OnStream(s)
    requires Oriented(n) && PairOk(PairOf(n, s)) && s in n.Side(e).streams && !Fresh(n.Side(e), s)
    requires RelayOk(n.Side(e).streams[s].relay) && EndOf(n.Side(e), s).Stage() != Deaf
    requires b.writer == n.Side(e).writer
    requires Acceptable(EndOf(n.Side(e), s).Stage(), e == Initiator(s), f) ==>
             Listens(EndOf(n.Side(e), s), EndOf(b, s), f)
    ensures PairOk(PairOf(Received(n, e, b), s))
  {
    var m := Received(n, e, b);
    var p := PairOf(n, s);
    ReceivedHanded(n, e, b, s);
    ReceivedPair(n, e, b, s);
    assert OfStream(m.Handed(e), s) == OfStream(n.Handed(e), s);
    var rest := OfStream(m.Handed(e.Opposite()), s);
    if e == Initiator(s) {
      PipeHead(p.r, f, rest);
      OpenerListens(p, EndOf(b, s), f, rest);
    } else {
      PipeHead(p.o, f, rest);
      ResponderListens(p, EndOf(b, s), f, rest);
    }
  }

  lemma DeliverToLive(n: Net, e: Endpoint, s: StreamId, f: PeerFrame)
    requires SidesOk(n) && PairsOk(n) && s in n.Side(e).streams
    requires n.Wire(e.Opposite()) != [] && f == n.Wire(e.Opposite())[0] && f.OnStream(s)
    ensures var a := n.Side(e);
            PairsOk(Received(n, e, Apply(a, s, InboundOn(a.config, a.local, s, a.streams[s], f))))
  {
    var a := n.Side(e);
    var effect := InboundOn(a.config, a.local, s, a.streams[s], f);
    var b := Apply(a, s, effect);
    Expose(n, e, s);
    assert PairOk(PairOf(n, s));
    ApplyEnd(a, s, effect, s);
    if EndOf(a, s).Stage() == Deaf {
      DeafPair(n, e, s);
      SameReceived(n, e, b, s);
    } else {
      if Acceptable(EndOf(a, s).Stage(), e == Initiator(s), f) { InboundListens(a.config, EndOf(a, s), s, f); }
      LivePair(n, e, s, f, b);
    }
    ApplyOnlyAt(n, e, s, effect);
    OthersReceive(n, e, b, s);
  }

  lemma SameReceived(n: Net, e: Endpoint, b: Actor, s: StreamId)
    requires n.Wire(e.Opposite()) != [] && b.writer == n.Side(e).writer && EndOf(b, s) == EndOf(n.Side(e), s)
    ensures PairOf(Received(n, e, b), s) == PairOf(Received(n, e, n.Side(e)), s)
  {
    ReceivedPair(n, e, b, s);
    ReceivedPair(n, e, n.Side(e), s);
    assert Received(n, e, b).Handed(e) == Received(n, e, n.Side(e)).Handed(e);
  }

  /** A frame for a stream that is not here any more. */
  lemma DeliverToGone(n: Net, e: Endpoint, s: StreamId, f: PeerFrame)
    requires Oriented(n) && PairsOk(n) && s !in n.Side(e).streams
    requires n.Wire(e.Opposite()) != [] && f == n.Wire(e.Opposite())[0] && f.OnStream(s) && !f.Open?
    ensures PairsOk(Received(n, e, n.Side(e)))
  {
    var p := PairOf(n, s);
    assert PairOk(p);
    ReceivedHanded(n, e, n.Side(e), s);
    var rest := OfStream(Received(n, e, n.Side(e)).Handed(e.Opposite()), s);
    if e == Initiator(s) { PipeHead(p.r, f, rest); } else { PipeHead(p.o, f, rest); }
    DeafPair(n, e, s);
    OthersReceive(n, e, n.Side(e), s);
  }

  lemma DeliverAscends(n: Net, e: Endpoint, b: Actor)
    requires n.Wire(e.Opposite()) != [] && OpensAscend(n.Handed(e.Opposite()))
    ensures OpensAscend(Received(n, e, b).Handed(e.Opposite()))
  {
    ReceivedHanded(n, e, b, 0);
    var fs := Received(n, e, b).Handed(e.Opposite());
    assert forall i :: 0 <= i < |fs| ==> n.Handed(e.Opposite())[i + 1] == fs[i];
  }

  // ------------------------------------------------------------ OPEN delivered

  /** No OPEN below the one being delivered is under way behind it. */
  lemma EarlierOpensGone(n: Net, e: Endpoint, t: StreamId)
    requires SidesOk(n) && PairsOk(n) && OpensAscend(n.Handed(e.Opposite()))
    requires n.Wire(e.Opposite()) != [] && n.Wire(e.Opposite())[0].Open?
    requires Initiator(t) == e.Opposite() && Counter(t) < Counter(n.Wire(e.Opposite())[0].streamId)
    requires PairOf(n, t).r.Stage() == Unknown
    ensures Pipe(PairOf(n, t).o, PairOf(n, t).fwd) == []
  {
    var opp := e.Opposite();
    var p := PairOf(n, t);
    assert PairOk(p);
    Expose(n, opp, t);
    if p.fwd != [] {
      assert n.Handed(opp)[0] == n.Wire(opp)[0];
      var i := OfStreamOnly(n.Handed(opp), t, 0);
    }
  }

  lemma SkippedPair(n: Net, e: Endpoint, b: Actor, t: StreamId)
    requires SidesOk(n) && PairsOk(n) && OpensAscend(n.Handed(e.Opposite()))
    requires n.Wire(e.Opposite()) != [] && n.Wire(e.Opposite())[0].Open?
    requires var s := n.Wire(e.Opposite())[0].streamId;
             && t != s && Initiator(s) == e.Opposite() && Counter(s) < n.Side(e.Opposite()).nextCounter
             && EndOf(b, t) == EndOf(n.Side(e).(highest := Some(Counter(s))), t)
             && Fresh(n.Side(e), s)
    requires OfStream(n.With(e, b).Handed(e), t) == OfStream(n.Handed(e), t)
    ensures PairOk(PairOf(Received(n, e, b), t))
  {
    var a := n.Side(e);
    var s := n.Wire(e.Opposite())[0].streamId;
    var p := PairOf(n, t);
    assert PairOk(p);
    Expose(n, e, t);
    Expose(n, e.Opposite(), t);
    assert Received(n, e, b).Handed(e) == n.With(e, b).Handed(e);
    if EndOf(b, t) == EndOf(a, t) {
      OtherReceives(n, e, b, s, t);
    } else {
      EarlierOpensGone(n, e, t);
      ResponderSkips(p);
      ReceivedHanded(n, e, b, t);
      ReceivedPair(n, e, b, t);
    }
  }

  predicate Admits(a: Actor, q: OpenRequest) {
    && q.openIdentity.entryGateway == a.peerGateway && |a.streams| < a.config.maxStreams
    && q.openIdentity !in a.activeOpens
  }

  lemma RefusedEnds(a: Actor, s: StreamId, q: OpenRequest, t: StreamId)
    requires !Admits(a, q)
    ensures EndOf(AdmitOpen(a, s, q), t) == EndOf(a, t)
  {
  }

  lemma AdmittedEnds(a: Actor, s: StreamId, q: OpenRequest, t: StreamId)
    requires Admits(a, q)
    ensures var b := AdmitOpen(a, s, q);
            if t != s then EndOf(b, t) == EndOf(a, t)
            else
              && EndOf(b, s).here == Some(OpeningStream(q.openIdentity, Remote, None))
              && EndOf(b, s).me == a.local && EndOf(b, s).unused == Fresh(a, s) && EndOf(b, s).closed == a.writerClosed
              && EndOf(b, s).sum.delivered == View(a, s).delivered && EndOf(b, s).sum.accepted == View(a, s).accepted
              && EndOf(b, s).sum.finSeen == View(a, s).finSeen && EndOf(b, s).sum.violated == View(a, s).violated
  {
    var id := q.openIdentity;
    var opening := Emitted(IncomingOpen(id, q.destination, q.relaySessionId, q.bindingId));
    SummarizeNotes(a.history, s, [Inserted(id), opening], t, a.local);
    if t == s { TwoNotes(View(a, s), Inserted(id), opening, Initiator(s) == a.local); }
  }

  lemma AdmitEnds(a: Actor, s: StreamId, q: OpenRequest, t: StreamId)
    requires t != s
    ensures EndOf(AdmitOpen(a, s, q), t) == EndOf(a, t)
  {
    if Admits(a, q) { AdmittedEnds(a, s, q, t); } else { RefusedEnds(a, s, q, t); }
  }

  /** A refusal answers FAILED on that stream or nothing. */
  lemma AdmitWriter(a: Actor, s: StreamId, q: OpenRequest) returns (answer: seq<PeerFrame>)
    ensures AdmitOpen(a, s, q).writer == a.writer + answer
    ensures answer == [] || (|answer| == 1 && answer[0].Failed? && answer[0].OnStream(s))
    ensures Admits(a, q) ==> answer == []
  {
    var b := AdmitOpen(a, s, q);
    if b.writer == a.writer {
      answer := [];
      assert a.writer + [] == a.writer;
    } else {
      answer := [b.writer[|a.writer|]];
    }
  }

  lemma AdmitHanded(n: Net, e: Endpoint, b: Actor, s: StreamId, answer: seq<PeerFrame>, t: StreamId)
    requires b.writer == n.Side(e).writer + answer
    requires answer == [] || (|answer| == 1 && answer[0].Failed? && answer[0].OnStream(s))
    ensures OfStream(n.With(e, b).Handed(e), t) == OfStream(n.Handed(e), t) + (if t == s then answer else [])
    ensures OpensAscend(n.Handed(e)) ==> OpensAscend(n.With(e, b).Handed(e))
  {
    if answer == [] {
      assert n.With(e, b).Handed(e) == n.Handed(e);
    } else {
      HandedAppend(n, e, b, answer[0], t);
      if OpensAscend(n.Handed(e)) { AscendAppend(n.Handed(e), answer[0]); }
    }
  }

  /** The delivered OPEN is refused, with or without an answer. */
  lemma RefusedPair(n: Net, e: Endpoint, f: PeerFrame, b: Actor, answer: seq<PeerFrame>)
    requires n.Wire(e.Opposite()) != [] && f == n.Wire(e.Opposite())[0] && f.Open?
    requires var s := f.streamId;
             && PairOk(PairOf(n, s)) && Initiator(s) == e.Opposite() && EndOf(n.Side(e), s).Stage() == Unknown
             && b.writer == n.Side(e).writer + answer
             && (answer == [] || (|answer| == 1 && answer[0].Failed? && answer[0].OnStream(s)))
             && EndOf(b, s) == EndOf(n.Side(e), s).(unused := false)
    ensures PairOk(PairOf(Received(n, e, b), f.streamId))
  {
    var s := f.streamId;
    var rest := OfStream(Received(n, e, b).Handed(e.Opposite()), s);
    OpenTaken(n, e, f, b, answer);
    ResponderRejects(PairOf(n, s), EndOf(b, s), f, rest, answer);
  }

  /** How the pair of a delivered OPEN looks once the frame is off the wire. */
  lemma OpenTaken(n: Net, e: Endpoint, f: PeerFrame, b: Actor, answer: seq<PeerFrame>)
    requires n.Wire(e.Opposite()) != [] && f == n.Wire(e.Opposite())[0] && f.Open?
    requires Initiator(f.streamId) == e.Opposite()
    requires b.writer == n.Side(e).writer + answer
    requires answer == [] || (|answer| == 1 && answer[0].Failed? && answer[0].OnStream(f.streamId))
    ensures var s := f.streamId; var p := PairOf(n, s);
            var rest := OfStream(Received(n, e, b).Handed(e.Opposite()), s);
            && p.fwd == [f] + rest
            && PairOf(Received(n, e, b), s) == Pair(p.o, EndOf(b, s), rest, p.bwd + answer)
            && (p.bwd == [] ==> p.bwd + answer == answer)
            && (answer == [] ==> p.bwd + answer == p.bwd)
  {
    var s := f.streamId;
    AdmitHanded(n, e, b, s, answer, s);
    ReceivedHanded(n, e, b, s);
    ReceivedPair(n, e, b, s);
    assert Received(n, e, b).Handed(e) == n.With(e, b).Handed(e);
  }

  /** The delivered OPEN creates the responder's stream. */
  lemma AdmittedPair(n: Net, e: Endpoint, f: PeerFrame, b: Actor)
    requires n.Wire(e.Opposite()) != [] && f == n.Wire(e.Opposite())[0] && f.Open?
    requires var s := f.streamId; var y := EndOf(n.Side(e), s); var z := EndOf(b, s);
             && PairOk(PairOf(n, s)) && Initiator(s) == e.Opposite() && y.Stage() == Unknown
             && b.writer == n.Side(e).writer
             && z.here.Some? && z.here.value.relay.phase == Opening
             && !z.here.value.terminalQueued && !z.OwnFin() && z.here.value.queue == []
             && !z.unused && z.me == y.me && z.closed == y.closed
             && z.sum.delivered == y.sum.delivered && z.sum.accepted == y.sum.accepted
             && z.sum.finSeen == y.sum.finSeen && z.sum.violated == y.sum.violated
    ensures PairOk(PairOf(Received(n, e, b), f.streamId))
  {
    var s := f.streamId;
    assert b.writer == n.Side(e).writer + [];
    OpenTaken(n, e, f, b, []);
    ResponderAdmits(PairOf(n, s), EndOf(b, s), f, OfStream(Received(n, e, b).Handed(e.Opposite()), s));
  }

  lemma OpenedPair(n: Net, e: Endpoint, f: PeerFrame, q: OpenRequest, b: Actor, answer: seq<PeerFrame>)
    requires Oriented(n) && n.Wire(e.Opposite()) != [] && f == n.Wire(e.Opposite())[0] && f.Open?
    requires var s := f.streamId; var passed := n.Side(e).(highest := Some(Counter(s)));
             && PairOk(PairOf(n, s)) && Initiator(s) == e.Opposite()
             && s !in n.Side(e).streams && Fresh(n.Side(e), s)
             && b == AdmitOpen(passed, s, q) && b.writer == n.Side(e).writer + answer
             && (answer == [] || (|answer| == 1 && answer[0].Failed? && answer[0].OnStream(s)))
             && (Admits(passed, q) ==> answer == [])
    ensures PairOk(PairOf(Received(n, e, b), f.streamId))
  {
    var s := f.streamId;
    var passed := n.Side(e).(highest := Some(Counter(s)));
    assert EndOf(passed, s) == EndOf(n.Side(e), s).(unused := false);
    if Admits(passed, q) {
      AdmittedEnds(passed, s, q, s);
      AdmittedPair(n, e, f, b);
    } else {
      RefusedEnds(passed, s, q, s);
      RefusedPair(n, e, f, b, answer);
    }
  }

  lemma DeliverOpen(n: Net, e: Endpoint, f: PeerFrame)
    requires NetInv(n)
    requires n.Wire(e.Opposite()) != [] && f == n.Wire(e.Opposite())[0] && f.Open?
    ensures PairsOk(Received(n, e, HandleFrame(n.Side(e), f)))
    ensures OpensAscend(Received(n, e, HandleFrame(n.Side(e), f)).Handed(e))
  {
    var a := n.Side(e);
    var s := f.streamId;
    var q := OpenRequest(f.openIdentity, f.destination, f.relaySessionId, f.bindingId);
    assert n.Handed(e.Opposite())[0] == f;
    OpenUnderWay(n, e.Opposite(), 0);
    var passed := a.(highest := Some(Counter(s)));
    var b := AdmitOpen(passed, s, q);
    assert HandleFrame(a, f) == b;
    var answer := AdmitWriter(passed, s, q);
    var m := Received(n, e, b);
    assert m.Handed(e) == n.With(e, b).Handed(e);
    AdmitHanded(n, e, b, s, answer, s);
    forall t ensures PairOk(PairOf(m, t)) {
      if t == s {
        assert PairOk(PairOf(n, s));
        OpenedPair(n, e, f, q, b, answer);
      } else {
        AdmitEnds(passed, s, q, t);
        AdmitHanded(n, e, b, s, answer, t);
        SkippedPair(n, e, b, t);
      }
    }
  }

  /** PING, PONG and stray handshake frames touch no stream. */
  lemma DeliverTransport(n: Net, e: Endpoint, f: PeerFrame)
    requires PairsOk(n) && OpensAscend(n.Handed(e))
    requires n.Wire(e.Opposite()) != [] && f == n.Wire(e.Opposite())[0] && f.ForTransport()
    ensures PairsOk(Received(n, e, HandleFrame(n.Side(e), f)))
    ensures OpensAscend(Received(n, e, HandleFrame(n.Side(e), f)).Handed(e))
  {
    var b := HandleFrame(n.Side(e), f);
    var mid := n.With(e, b);
    if f.Ping? { CommitStep(n, e, Pong(f.nonce)); }
    assert PairsOk(mid);
    assert Received(n, e, b).Handed(e) == mid.Handed(e);
    forall t ensures PairOk(PairOf(Received(n, e, b), t)) {
      assert PairOk(PairOf(mid, t));
      TransportTaken(n, e, b, t);
    }
  }

  lemma TransportTaken(n: Net, e: Endpoint, b: Actor, t: StreamId)
    requires n.Wire(e.Opposite()) != [] && n.Wire(e.Opposite())[0].ForTransport()
    ensures PairOf(Received(n, e, b), t) == PairOf(n.With(e, b), t)
  {
    ReceivedHanded(n, e, b, t);
    ReceivedPair(n, e, b, t);
    PairMoves(n, n.With(e, b), e, t);
    assert Received(n, e, b).Handed(e) == n.With(e, b).Handed(e);
  }
}
