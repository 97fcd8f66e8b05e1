/**
 One stream between two endpoints: what its receiver will make of the frames
 still under way, and what payloads have been promised.
 */
module PeerLane {
  import opened Common
  import opened PeerFrames
  import opened PeerActor
  import opened PeerLifecycle

  // ------------------------------------------- the receiver's view of a stream

  datatype Stage =
    | Unknown          // the OPEN has not arrived
    | Awaiting         // opening
    | Receiving(fin: bool)
    | Finishing        // a terminal frame is under way: nothing may follow it
    | Deaf             // terminal or gone: every later frame is ignored

  predicate Acceptable(v: Stage, toOpener: bool, f: PeerFrame) {
    match v
    case Unknown => f.Open? && !toOpener
    case Awaiting => f.Reset? || (toOpener && (f.Opened? || f.Failed?))
    case Receiving(fin) => ((f.Data? || f.Fin?) && !fin) || f.Close? || f.Reset?
    case Finishing => false
    case Deaf => !f.Open?
  }

  function StageAfter(v: Stage, f: PeerFrame): Stage {
    if v == Deaf then Deaf
    else
      match f
      case Open(_, _, _, _, _) => Awaiting
      case Opened(_) => Receiving(false)
      case Fin(_) => Receiving(true)
      case Data(_, _) => v
      case _ => Finishing
  }

  /** Every frame of the pipe, in order, finds a receiver that accepts it. */
  predicate AllAcceptable(v: Stage, toOpener: bool, pipe: seq<PeerFrame>)
    decreases |pipe|
  {
    pipe != [] ==> Acceptable(v, toOpener, pipe[0]) && AllAcceptable(StageAfter(v, pipe[0]), toOpener, pipe[1..])
  }

  /** The stage once the pipe has drained. */
  function EndStage(v: Stage, pipe: seq<PeerFrame>): Stage
    decreases |pipe|
  {
    if pipe == [] then v else EndStage(StageAfter(v, pipe[0]), pipe[1..])
  }

  function Payloads(pipe: seq<PeerFrame>): seq<Bytes> {
    if pipe == [] then []
    else (if pipe[0].Data? then [pipe[0].payload] else []) + Payloads(pipe[1..])
  }

  ghost predicate HasFin(pipe: seq<PeerFrame>) { exists i :: 0 <= i < |pipe| && pipe[i].Fin? }

  ghost predicate HasOpened(pipe: seq<PeerFrame>) { exists i :: 0 <= i < |pipe| && pipe[i].Opened? }

  lemma {:induction false} Concat(v: Stage, toOpener: bool, p: seq<PeerFrame>, q: seq<PeerFrame>)
    ensures AllAcceptable(v, toOpener, p + q) <==>
            AllAcceptable(v, toOpener, p) && AllAcceptable(EndStage(v, p), toOpener, q)
    ensures EndStage(v, p + q) == EndStage(EndStage(v, p), q)
    ensures Payloads(p + q) == Payloads(p) + Payloads(q)
    decreases |p|
  {
    if p == [] {
      assert p + q == q;
    } else {
      assert (p + q)[1..] == p[1..] + q;
      Concat(StageAfter(v, p[0]), toOpener, p[1..], q);
    }
  }

  lemma Append(v: Stage, toOpener: bool, p: seq<PeerFrame>, f: PeerFrame)
    ensures AllAcceptable(v, toOpener, p + [f]) <==>
            AllAcceptable(v, toOpener, p) && Acceptable(EndStage(v, p), toOpener, f)
    ensures EndStage(v, p + [f]) == StageAfter(EndStage(v, p), f)
    ensures Payloads(p + [f]) == Payloads(p) + (if f.Data? then [f.payload] else [])
  {
    Concat(v, toOpener, p, [f]);
    assert [f][1..] == [];
  }

  /** A deaf receiver minds nothing but an OPEN, and no other receiver lets one through. */
  lemma {:induction false} Deafened(v: Stage, toOpener: bool, p: seq<PeerFrame>)
    requires AllAcceptable(v, toOpener, p) && v != Unknown
    ensures AllAcceptable(Deaf, toOpener, p) && EndStage(Deaf, p) == Deaf
    decreases |p|
  {
    if p != [] {
      if v == Deaf || !(v.Finishing?) {
        Deafened(StageAfter(v, p[0]), toOpener, p[1..]);
      }
    }
  }

  /** Answering OPENED opens the responder's own ear; at most a RESET was under way. */
  lemma Answered(p: seq<PeerFrame>)
    requires AllAcceptable(Awaiting, false, p)
    ensures AllAcceptable(Receiving(false), false, p)
    ensures p == [] || EndStage(Receiving(false), p) == Finishing
    ensures Payloads(p) == [] && !HasFin(p)
  {
    if p != [] {
      assert p[0].Reset?;
      assert p[1..] == [];
      assert p == [p[0]];
    }
  }

  lemma {:induction false} ReceivingStays(v: Stage, toOpener: bool, p: seq<PeerFrame>)
    requires AllAcceptable(v, toOpener, p) && (v.Receiving? || v.Finishing? || v.Deaf?)
    ensures EndStage(v, p).Receiving? || EndStage(v, p).Finishing? || EndStage(v, p).Deaf?
    ensures v == Receiving(true) || v == Finishing ==> Payloads(p) == []
    decreases |p|
  {
    if p != [] { ReceivingStays(StageAfter(v, p[0]), toOpener, p[1..]); }
  }

  /** No DATA follows a FIN that the receiver will still hear. */
  lemma {:induction false} FinIsLast(v: Stage, toOpener: bool, p: seq<PeerFrame>, q: seq<PeerFrame>)
    requires AllAcceptable(v, toOpener, p + q) && v != Deaf && HasFin(p)
    ensures Payloads(p + q) == Payloads(p)
    decreases |p|
  {
    assert (p + q)[1..] == p[1..] + q;
    if p[0].Fin? {
      ReceivingStays(Receiving(true), toOpener, p[1..] + q);
      Concat(Receiving(true), toOpener, p[1..], q);
      Concat(v, toOpener, p, q);
    } else {
      assert HasFin(p[1..]);
      FinIsLast(StageAfter(v, p[0]), toOpener, p[1..], q);
    }
  }

  // ------------------------------------------------------- one end of a stream

  /** All that one actor knows about a stream. */
  datatype StreamEnd = StreamEnd(me: Endpoint, here: Option<Stream>, unused: bool, closed: bool, sum: Summary)
  {
    function Stage(): Stage {
      if here.None? then (if unused then Unknown else Deaf)
      else if here.value.terminalQueued || here.value.relay.phase == Ended then Deaf
      else if here.value.relay.phase == Opening then Awaiting
      else Receiving(here.value.relay.Finished(me.Opposite()))
    }

    /** Able to queue further frames that can still reach the wire. */
    predicate Talking() { here.Some? && !here.value.terminalQueued && !closed }

    predicate OwnFin() { here.Some? && here.value.relay.Finished(me) }
  }

  /** What the sender may still say fits the stage its receiver will be in. */
  predicate SenderFits(x: StreamEnd, toOpener: bool, end: Stage) {
    x.Talking() ==>
      || end == Deaf
      || (x.here.value.relay.phase == Opening && (end == Awaiting || (!toOpener && end == Receiving(false))))
      || (x.here.value.relay.phase == Streaming && end == Receiving(x.OwnFin()))
  }

  /** Delivered payloads, and those under way, are what the sender accepted, in order. */
  ghost predicate Intact(x: StreamEnd, y: StreamEnd, pipe: seq<PeerFrame>) {
    && y.sum.delivered <= x.sum.accepted
    && (y.Stage() != Deaf ==> y.sum.delivered + Payloads(pipe) <= x.sum.accepted)
    && (y.Stage() != Deaf && ((x.here.Some? && !x.closed) || HasFin(pipe)) ==>
          y.sum.delivered + Payloads(pipe) == x.sum.accepted)
    && (y.sum.finSeen ==> y.sum.delivered == x.sum.accepted)
    && (y.sum.finSeen || HasFin(pipe) ==> x.here.None? || x.OwnFin())
  }

  ghost predicate Flow(x: StreamEnd, y: StreamEnd, toOpener: bool, pipe: seq<PeerFrame>) {
    && AllAcceptable(y.Stage(), toOpener, pipe)
    && SenderFits(x, toOpener, EndStage(y.Stage(), pipe))
    && Intact(x, y, pipe)
  }

  // --------------------------------------------------- how a flow moves on

  /** The receiver's stage changes by its own doing, without a frame arriving. */
  predicate Drifts(v: Stage, w: Stage, toOpener: bool, pipe: seq<PeerFrame>) {
    || w == v
    || (w == Deaf && (v == Unknown ==> pipe == []))
    || (v == Awaiting && w == Receiving(false) && !toOpener)
  }

  lemma ReceiverDrifts(x: StreamEnd, y: StreamEnd, z: StreamEnd, toOpener: bool, pipe: seq<PeerFrame>)
    requires Flow(x, y, toOpener, pipe)
    requires z.sum.delivered == y.sum.delivered && z.sum.finSeen == y.sum.finSeen
    requires Drifts(y.Stage(), z.Stage(), toOpener, pipe)
    ensures Flow(x, z, toOpener, pipe)
  {
    if z.Stage() != y.Stage() {
      if z.Stage() == Deaf {
        if y.Stage() != Unknown { Deafened(y.Stage(), toOpener, pipe); }
      } else {
        Answered(pipe);
      }
    }
  }

  /** One more frame leaves the sender's hands. */
  predicate Speaks(x: StreamEnd, w: StreamEnd, toOpener: bool, f: PeerFrame) {
    && x.here.Some? && w.here.Some? && !x.here.value.terminalQueued
    && w.me == x.me && w.closed == x.closed
    && (x.OwnFin() ==> w.OwnFin())
    && w.sum.accepted == x.sum.accepted + (if f.Data? then [f.payload] else [])
    && (w.here.value.terminalQueued ||
        match f
        case Opened(_) => w.here.value.relay.phase == Streaming && !w.OwnFin()
        case _ => w.here.value.relay.phase == Streaming && (w.OwnFin() <==> f.Fin?))
    && match f
       case Opened(_) => toOpener && x.here.value.relay.phase == Opening
       case Failed(_, _, _, _) => toOpener && x.here.value.relay.phase == Opening && w.here.value.terminalQueued
       case Data(_, _) => x.here.value.relay.phase == Streaming && !x.OwnFin()
       case Fin(_) => x.here.value.relay.phase == Streaming && !x.OwnFin() && w.OwnFin()
       case Close(_) => x.here.value.relay.phase == Streaming && w.here.value.terminalQueued
       case Reset(_, _, _) => x.here.value.relay.phase != Ended && w.here.value.terminalQueued
       case _ => false
  }

  lemma SenderSpeaks(x: StreamEnd, w: StreamEnd, y: StreamEnd, toOpener: bool, pipe: seq<PeerFrame>, f: PeerFrame)
    requires Flow(x, y, toOpener, pipe) && Speaks(x, w, toOpener, f)
    ensures Flow(w, y, toOpener, if x.closed then pipe else pipe + [f])
  {
    Append(y.Stage(), toOpener, pipe, f);
    if !x.closed {
      var longer := pipe + [f];
      assert forall i :: 0 <= i < |pipe| ==> longer[i] == pipe[i];
      assert longer[|pipe|] == f;
      assert HasFin(longer) <==> HasFin(pipe) || f.Fin?;
    }
  }

  /** The sender's state moves on with nothing added to the pipe. */
  predicate StaysQuiet(x: StreamEnd, w: StreamEnd, y: StreamEnd) {
    && x.here.Some? && w.here.Some? && w.me == x.me && w.closed == x.closed
    && w.sum.accepted == x.sum.accepted
    && (x.OwnFin() ==> w.OwnFin())
    && (|| w.here.value.terminalQueued
        || (&& !x.here.value.terminalQueued && w.OwnFin() == x.OwnFin()
            && (|| w.here.value.relay.phase == x.here.value.relay.phase
                || (w.here.value.relay.phase == Streaming && (y.Stage().Receiving? || y.Stage() == Deaf)))))
  }

  lemma SenderQuiet(x: StreamEnd, w: StreamEnd, y: StreamEnd, toOpener: bool, pipe: seq<PeerFrame>)
    requires Flow(x, y, toOpener, pipe) && StaysQuiet(x, w, y)
    requires x.here.value.relay.phase == Opening ==> !x.OwnFin()
    ensures Flow(w, y, toOpener, pipe)
  {
    if y.Stage().Receiving? || y.Stage() == Deaf { ReceivingStays(y.Stage(), toOpener, pipe); }
  }

  /** The sender falls silent for good; what it had not handed over is lost. */
  lemma SenderCut(x: StreamEnd, w: StreamEnd, y: StreamEnd, toOpener: bool, pipe: seq<PeerFrame>, lost: seq<PeerFrame>)
    requires Flow(x, y, toOpener, pipe + lost)
    requires w.me == x.me && w.sum.accepted == x.sum.accepted && (w.here.None? || w.closed)
    requires w.here == x.here || w.here.None?
    ensures Flow(w, y, toOpener, pipe)
  {
    Concat(y.Stage(), toOpener, pipe, lost);
    if HasFin(pipe) {
      assert HasFin(pipe + lost) by {
        var i :| 0 <= i < |pipe| && pipe[i].Fin?;
        assert (pipe + lost)[i].Fin?;
      }
      if y.Stage() != Deaf { FinIsLast(y.Stage(), toOpener, pipe, lost); }
    }
  }

  /** The receiver takes the oldest frame of the pipe. */
  predicate Hears(y: StreamEnd, z: StreamEnd, f: PeerFrame) {
    && (z.Stage() == Deaf || z.Stage() == StageAfter(y.Stage(), f))
    && z.sum.delivered == y.sum.delivered + (if f.Data? then [f.payload] else [])
    && z.sum.finSeen == (y.sum.finSeen || f.Fin?)
  }

  lemma ReceiverHears(x: StreamEnd, y: StreamEnd, z: StreamEnd, toOpener: bool, f: PeerFrame, rest: seq<PeerFrame>)
    requires Flow(x, y, toOpener, [f] + rest) && y.Stage() != Deaf && Hears(y, z, f)
    ensures Flow(x, z, toOpener, rest)
  {
    var pipe := [f] + rest;
    assert pipe[1..] == rest;
    Deafened(StageAfter(y.Stage(), f), toOpener, rest);
    if f.Fin? {
      assert HasFin(pipe);
      ReceivingStays(Receiving(true), toOpener, rest);
    }
    if HasFin(rest) {
      var i :| 0 <= i < |rest| && rest[i].Fin?;
      assert pipe[i + 1].Fin?;
    }
  }

  lemma DeafReceiverHears(x: StreamEnd, y: StreamEnd, toOpener: bool, f: PeerFrame, rest: seq<PeerFrame>)
    requires Flow(x, y, toOpener, [f] + rest) && y.Stage() == Deaf
    ensures Flow(x, y, toOpener, rest)
  {
    var pipe := [f] + rest;
    assert pipe[1..] == rest;
    if HasFin(rest) {
      var i :| 0 <= i < |rest| && rest[i].Fin?;
      assert pipe[i + 1].Fin?;
    }
  }
}
