/** Heartbeats and idle retirement of one peer transport. */
module Liveness {
  import opened Common
  import opened PeerFrames

  datatype Timers = Timers(heartbeatIdle: nat, heartbeatResponse: nat, idleRetirement: nat)

  datatype Probe = Probe(nonce: U64, sentAt: Instant, deadline: Instant)

  datatype State = State(timers: Timers, lastInbound: Instant, pending: Option<Probe>,
                         zeroStreamSince: Option<Instant>, nextNonce: U64)

  function NewState(t: Timers, now: Instant): State { State(t, now, None, None, 1) }

  // --------------------------------------------------------------- operations

  function Synced(s: State, isEmpty: bool, now: Instant): State {
    match (isEmpty, s.zeroStreamSince)
    case (true, None) => s.(zeroStreamSince := Some(now), pending := None)
    case (false, Some(_)) => s.(zeroStreamSince := None, lastInbound := now)
    case _ => s
  }

  predicate Answers(p: Probe, f: PeerFrame, now: Instant) { f.Pong? && f.nonce == p.nonce && now < p.deadline }

  function Heard(s: State, f: PeerFrame, now: Instant): State {
    match s.pending
    case Some(p) => if Answers(p, f, now) then s.(lastInbound := now, pending := None) else s
    case None =>
      if f.Pong? || f.Hello? || f.Welcome? || f.HandshakeRejected? then s else s.(lastInbound := now)
  }

  predicate TimedOut(s: State, now: Instant) { s.pending.Some? && s.pending.value.deadline <= now }

  datatype Verdict = Nothing | SendPing(nonce: U64) | HeartbeatTimedOut | Idle

  /** `wrapping_add(1).max(1)`: zero is never used. */
  function NextNonce(n: U64): U64 { if n + 1 == U64_LIMIT then 1 else n + 1 }

  function AtDeadline(s: State, now: Instant, isEmpty: bool, queueEmpty: bool): (State, Verdict) {
    if isEmpty then
      if s.zeroStreamSince.Some? && s.zeroStreamSince.value + s.timers.idleRetirement <= now then
        if queueEmpty then (s, Idle) else (s.(zeroStreamSince := Some(now)), Nothing)
      else (s, Nothing)
    else if s.pending.Some? then (s, if s.pending.value.deadline <= now then HeartbeatTimedOut else Nothing)
    else if s.lastInbound + s.timers.heartbeatIdle > now then (s, Nothing)
    else
      (s.(nextNonce := NextNonce(s.nextNonce),
          pending := Some(Probe(s.nextNonce, now, now + s.timers.heartbeatResponse))),
       SendPing(s.nextNonce))
  }

  function Committed(s: State, now: Instant): State {
    if s.pending.None? then s
    else s.(pending := Some(s.pending.value.(sentAt := now, deadline := now + s.timers.heartbeatResponse)))
  }

  // ------------------------------------------------------------ the read loop

  /** Ends of the loop that have nothing to do with liveness. */
  datatype Cause = LocalClose | RemoteClosed | ProtocolError | WriterFailed

  /**
   One turn of the transport's loop; `now` and `later` are clock readings within it. A frame is `accepted` if the
   actor lets the loop go on after it. `Stop` is a shutdown, the end of the input, a frame that does not decode, or
   the end of the writer.
   */
  datatype Event =
    | Activity(later: Instant, isEmpty: bool)
    | Inbound(now: Instant, frame: PeerFrame, accepted: bool, later: Instant, isEmpty: bool)
    | Wake(now: Instant, emptyThen: bool, queueEmpty: bool, committed: bool, later: Instant, isEmpty: bool)
    | Stop(cause: Cause, later: Instant, isEmpty: bool)

  datatype Reason = Stopped(cause: Cause) | HeartbeatTimeout | IdleRetired

  datatype Turn = Going(state: State) | Ended(reason: Reason, at: Instant)

  function Handle(s: State, x: Event): Turn {
    match x
    case Activity(later, isEmpty) => Going(Synced(s, isEmpty, later))
    case Stop(cause, later, _) => Ended(Stopped(cause), later)
    case Inbound(now, frame, accepted, later, isEmpty) =>
      var o := Heard(s, frame, now);
      if TimedOut(o, later) then Ended(HeartbeatTimeout, later)
      else if !accepted then Ended(Stopped(ProtocolError), later)
      else Going(Synced(o, isEmpty, later))
    case Wake(now, emptyThen, queueEmpty, committed, later, isEmpty) =>
      var (o, verdict) := AtDeadline(s, now, emptyThen, queueEmpty);
      match verdict
      case HeartbeatTimedOut => Ended(HeartbeatTimeout, now)
      case Idle => Ended(IdleRetired, now)
      case SendPing(_) =>
        if committed then Going(Synced(Committed(o, later), isEmpty, later)) else Ended(Stopped(WriterFailed), now)
      case Nothing => Going(Synced(o, isEmpty, later))
  }

  function Run(s: State, events: seq<Event>): Turn {
    if events == [] then Going(s)
    else
      match Run(s, events[..|events| - 1])
      case Ended(reason, at) => Ended(reason, at)
      case Going(t) => Handle(t, events[|events| - 1])
  }

  // ------------------------------------------------------------------- probes

  predicate Busy(x: Event) { !x.isEmpty && (x.Wake? ==> !x.emptyThen) }

  predicate AnsweredBy(p: Probe, x: Event) { x.Inbound? && Answers(p, x.frame, x.now) }

  /** The loop ends in a heartbeat timeout exactly when this event finds the probe overdue. */
  predicate FindsOverdue(p: Probe, x: Event) {
    match x
    case Activity(_, _) | Stop(_, _, _) => false
    case Inbound(_, _, _, later, _) => !AnsweredBy(p, x) && p.deadline <= later
    case Wake(now, _, _, _, _, _) => p.deadline <= now
  }

  /** The loop would end here without any probe, too. */
  predicate Ends(x: Event) { x.Stop? || (x.Inbound? && !x.accepted) }

  /**
   While streams are open, one turn leaves a probe alone, or answers it, or finds it overdue, or ends the loop for
   another cause; a heartbeat timeout is exactly the third.
   */
  lemma TurnKeepsProbe(s: State, x: Event)
    requires s.pending.Some? && s.zeroStreamSince.None? && Busy(x)
    ensures var p := s.pending.value;
            match Handle(s, x)
            case Ended(reason, at) =>
              if FindsOverdue(p, x) then reason == HeartbeatTimeout && p.deadline <= at
              else reason.Stopped? && Ends(x)
            case Going(t) =>
              && t.zeroStreamSince.None? && !FindsOverdue(p, x) && !Ends(x)
              && t.pending == if AnsweredBy(p, x) then None else Some(p)
  {
  }

  /**
   In every run with open streams a probe keeps its nonce and its deadline until
   it is answered in time, found overdue, or the loop ends for a cause of its own.
   */
  lemma {:induction false} ProbePersists(s: State, events: seq<Event>)
    requires s.pending.Some? && s.zeroStreamSince.None? && forall i :: 0 <= i < |events| ==> Busy(events[i])
    ensures var p := s.pending.value;
            (forall i :: 0 <= i < |events| ==> !AnsweredBy(p, events[i])) ==>
              match Run(s, events)
              case Going(t) => t.pending == Some(p) && t.zeroStreamSince.None?
                               && forall i :: 0 <= i < |events| ==> !FindsOverdue(p, events[i]) && !Ends(events[i])
              case Ended(reason, at) =>
                if reason == HeartbeatTimeout
                then p.deadline <= at && exists i :: 0 <= i < |events| && FindsOverdue(p, events[i])
                else reason.Stopped? && exists i :: 0 <= i < |events| && Ends(events[i])
  {
    var p := s.pending.value;
    if events != [] && forall i :: 0 <= i < |events| ==> !AnsweredBy(p, events[i]) {
      var n := |events| - 1;
      ProbePersists(s, events[..n]);
      assert forall i :: 0 <= i < n ==> events[..n][i] == events[i];
      match Run(s, events[..n])
      case Ended(reason, _) =>
        if reason == HeartbeatTimeout {
          var i :| 0 <= i < n && FindsOverdue(p, events[..n][i]);
          assert FindsOverdue(p, events[i]);
        } else {
          var i :| 0 <= i < n && Ends(events[..n][i]);
          assert Ends(events[i]);
        }
      case Going(t) => TurnKeepsProbe(t, events[n]);
    }
  }

  /** Nothing but a matching PONG strictly before the deadline clears a probe. */
  lemma OnlyTimelyPongClears(s: State, x: Event)
    requires s.pending.Some? && s.zeroStreamSince.None? && Busy(x)
    requires Handle(s, x).Going? && Handle(s, x).state.pending != s.pending
    ensures x.Inbound? && x.frame == Pong(s.pending.value.nonce) && x.now < s.pending.value.deadline
  {
  }

  /** Such a PONG does clear it, and counts as hearing from the peer. */
  lemma TimelyPongClears(s: State, x: Event)
    requires s.pending.Some? && s.zeroStreamSince.None? && Busy(x) && x.Inbound? && x.accepted
    requires x.frame == Pong(s.pending.value.nonce) && x.now < s.pending.value.deadline
    ensures Handle(s, x) == Going(s.(pending := None, lastInbound := x.now))
  {
  }

  /** When streams run out a probe is dropped; when they return, silence counts from that moment. */
  lemma QuietAfterReturn(s: State, ran: Instant, back: Instant, now: Instant, queueEmpty: bool)
    requires s.zeroStreamSince.None?
    ensures var idle := Synced(s, true, ran);
            && idle.zeroStreamSince == Some(ran) && idle.pending.None?
            && AtDeadline(Synced(idle, false, back), now, false, queueEmpty).1 ==
               if now < back + s.timers.heartbeatIdle then Nothing else SendPing(s.nextNonce)
  {
  }

  // --------------------------------------------------------------- retirement

  /** Since when every turn has ended without open streams. */
  function EmptySince(events: seq<Event>): Option<Instant> {
    if events == [] then None
    else
      var x := events[|events| - 1];
      if !x.isEmpty then None
      else
        match EmptySince(events[..|events| - 1])
        case Some(t) => Some(t)
        case None => Some(x.later)
  }

  /** Clock readings never go back. */
  predicate Timely(events: seq<Event>) {
    && (forall i :: 0 <= i < |events| && (events[i].Inbound? || events[i].Wake?) ==> events[i].now <= events[i].later)
    && (forall i, j :: 0 <= i < j < |events| && (events[j].Inbound? || events[j].Wake?) ==>
        events[i].later <= events[j].now)
    && (forall i, j :: 0 <= i < j < |events| ==> events[i].later <= events[j].later)
  }

  lemma {:induction false} EmptySincePast(events: seq<Event>)
    requires Timely(events) && events != [] && EmptySince(events).Some?
    ensures EmptySince(events).value <= events[|events| - 1].later
  {
    var n := |events| - 1;
    if n > 0 && EmptySince(events[..n]).Some? {
      EmptySincePast(events[..n]);
    }
  }

  /** The idle clock never runs ahead of the truth. */
  lemma {:induction false} IdleClockHonest(t: Timers, start: Instant, events: seq<Event>)
    requires Timely(events) && Run(NewState(t, start), events).Going?
    ensures var s := Run(NewState(t, start), events).state;
            s.zeroStreamSince.Some? ==>
              EmptySince(events).Some? && EmptySince(events).value <= s.zeroStreamSince.value
    ensures events != [] ==>
              (Run(NewState(t, start), events).state.zeroStreamSince.Some? <==> events[|events| - 1].isEmpty)
    ensures Run(NewState(t, start), events).state.timers == t
  {
    if events != [] {
      var n := |events| - 1;
      var init, x := events[..n], events[n];
      IdleClockHonest(t, start, init);
      if EmptySince(init).Some? && n > 0 { EmptySincePast(init); }
    }
  }

  /** A transport is retired only after a whole retirement timeout without streams, and with no command waiting. */
  lemma RetiredOnlyWhenIdle(t: Timers, start: Instant, events: seq<Event>, x: Event)
    requires Timely(events + [x]) && Run(NewState(t, start), events).Going?
    requires Run(NewState(t, start), events + [x]).Ended? && Run(NewState(t, start), events + [x]).reason == IdleRetired
    ensures x.Wake? && x.emptyThen && x.queueEmpty && Run(NewState(t, start), events + [x]).at == x.now
    ensures EmptySince(events).Some? && EmptySince(events).value + t.idleRetirement <= x.now
  {
    assert (events + [x])[..|events|] == events;
    forall i | 0 <= i < |events| ensures events[i] == (events + [x])[i] { }
    assert Timely(events);
    IdleClockHonest(t, start, events);
  }

  /** When the idle clock was last set, read from the events: streams ran out, or it was due and commands waited. */
  function IdleClock(t: Timers, events: seq<Event>): Option<Instant> {
    if events == [] then None
    else
      var x := events[|events| - 1];
      if !x.isEmpty then None
      else
        match IdleClock(t, events[..|events| - 1])
        case None => Some(x.later)
        case Some(since) =>
          if x.Wake? && x.emptyThen && since + t.idleRetirement <= x.now then Some(x.now) else Some(since)
  }

  lemma {:induction false} ClockIsKept(t: Timers, start: Instant, events: seq<Event>)
    requires Run(NewState(t, start), events).Going?
    ensures Run(NewState(t, start), events).state.zeroStreamSince == IdleClock(t, events)
    ensures Run(NewState(t, start), events).state.timers == t
  {
    if events != [] { ClockIsKept(t, start, events[..|events| - 1]); }
  }

  /** A transport is retired exactly when it wakes without streams or commands a whole timeout past its idle clock. */
  lemma RetiredExactly(t: Timers, start: Instant, events: seq<Event>, x: Event)
    requires Run(NewState(t, start), events).Going?
    ensures var turn := Run(NewState(t, start), events + [x]);
            turn.Ended? && turn.reason == IdleRetired <==>
            && x.Wake? && x.emptyThen && x.queueEmpty
            && IdleClock(t, events).Some? && IdleClock(t, events).value + t.idleRetirement <= x.now
  {
    assert (events + [x])[..|events|] == events;
    ClockIsKept(t, start, events);
  }

  // --------------------------------------------------------------- when to probe

  /** Frames that show the peer alive while no probe is out. */
  predicate Counts(f: PeerFrame) { !(f.Pong? || f.Hello? || f.Welcome? || f.HandshakeRejected?) }

  /** When the peer was last heard. */
  function LastHeard(start: Instant, events: seq<Event>): Instant {
    if events == [] then start
    else
      var x := events[|events| - 1];
      if x.Inbound? && Counts(x.frame) then x.now else LastHeard(start, events[..|events| - 1])
  }

  /** Up to here no wake came a whole idle timeout after the peer was last heard. */
  predicate NeverQuiet(t: Timers, start: Instant, events: seq<Event>) {
    forall i :: 0 <= i < |events| && events[i].Wake? ==>
      events[i].now < LastHeard(start, events[..i]) + t.heartbeatIdle
  }

  lemma {:induction false} NoProbeYet(s: State, events: seq<Event>)
    requires s.pending.None? && s.zeroStreamSince.None? && Run(s, events).Going?
    requires (forall i :: 0 <= i < |events| ==> Busy(events[i])) && NeverQuiet(s.timers, s.lastInbound, events)
    ensures Run(s, events).state == s.(lastInbound := LastHeard(s.lastInbound, events))
  {
    if events != [] {
      var n := |events| - 1;
      var init := events[..n];
      forall i | 0 <= i < n ensures init[i] == events[i] && init[..i] == events[..i] { }
      NoProbeYet(s, init);
      assert Busy(events[n]);
    }
  }

  lemma OneMore(s: State, events: seq<Event>, x: Event)
    requires Run(s, events).Going?
    ensures Run(s, events + [x]) == Handle(Run(s, events).state, x)
  {
    assert (events + [x])[..|events|] == events;
  }

  lemma WakeHandled(s: State, x: Event)
    requires s.pending.None? && s.zeroStreamSince.None? && x.Wake? && Busy(x)
    ensures Handle(s, x) ==
            if x.now < s.lastInbound + s.timers.heartbeatIdle then Going(s)
            else if !x.committed then Ended(Stopped(WriterFailed), x.now)
            else Going(s.(nextNonce := NextNonce(s.nextNonce),
                          pending := Some(Probe(s.nextNonce, x.later, x.later + s.timers.heartbeatResponse))))
  {
  }

  /**
   With open streams and no probe out, the first wake a whole idle timeout after the peer was last heard sends one,
   with the next nonce and a deadline one response timeout after it was sent; no earlier wake does.
   */
  lemma ProbedExactly(s: State, events: seq<Event>, x: Event)
    requires s.pending.None? && s.zeroStreamSince.None? && Run(s, events).Going?
    requires (forall i :: 0 <= i < |events| ==> Busy(events[i])) && NeverQuiet(s.timers, s.lastInbound, events)
    requires x.Wake? && Busy(x)
    ensures var heard := LastHeard(s.lastInbound, events);
            Run(s, events + [x]) ==
            if x.now < heard + s.timers.heartbeatIdle then Going(s.(lastInbound := heard))
            else if !x.committed then Ended(Stopped(WriterFailed), x.now)
            else Going(s.(lastInbound := heard, nextNonce := NextNonce(s.nextNonce),
                          pending := Some(Probe(s.nextNonce, x.later, x.later + s.timers.heartbeatResponse))))
  {
    NoProbeYet(s, events);
    OneMore(s, events, x);
    WakeHandled(Run(s, events).state, x);
  }

  /** No nonce is zero, and two probes in a row never share one. */
  lemma NoncesDiffer(n: U64)
    ensures NextNonce(n) != n && NextNonce(n) >= 1 && (n + 1 < U64_LIMIT ==> NextNonce(n) == n + 1)
  {
  }

  // ------------------------------------------------------------------- object

  class TransportLiveness {
    const timers: Timers
    var lastInbound: Instant
    var pending: Option<Probe>
    var zeroStreamSince: Option<Instant>
    var nextNonce: U64

    function Value(): State reads this { State(timers, lastInbound, pending, zeroStreamSince, nextNonce) }

    constructor (timers: Timers, now: Instant)
      ensures Value() == NewState(timers, now)
    {
      this.timers := timers;
      lastInbound, pending, zeroStreamSince, nextNonce := now, None, None, 1;
    }

    method SyncStreamState(isEmpty: bool, now: Instant)
      modifies this
      ensures Value() == Synced(old(Value()), isEmpty, now)
    {
      if isEmpty && zeroStreamSince.None? {
        zeroStreamSince, pending := Some(now), None;
      } else if !isEmpty && zeroStreamSince.Some? {
        zeroStreamSince, lastInbound := None, now;
      }
    }

    /** Returns the round trip of an answered probe. */
    method ObserveInbound(f: PeerFrame, now: Instant) returns (roundTrip: Option<int>)
      modifies this
      ensures Value() == Heard(old(Value()), f, now)
      ensures roundTrip == if old(pending).Some? && Answers(old(pending).value, f, now)
                           then Some(now - old(pending).value.sentAt) else None
    {
      roundTrip := None;
      if pending.Some? {
        if !Answers(pending.value, f, now) { return; }
        roundTrip := Some(now - pending.value.sentAt);
      } else if f.Pong? || f.Hello? || f.Welcome? || f.HandshakeRejected? {
        return;
      }
      lastInbound, pending := now, None;
    }

    method OnDeadline(now: Instant, isEmpty: bool, queueEmpty: bool) returns (v: Verdict)
      modifies this
      ensures (Value(), v) == AtDeadline(old(Value()), now, isEmpty, queueEmpty)
    {
      if isEmpty {
        if zeroStreamSince.Some? && zeroStreamSince.value + timers.idleRetirement <= now {
          if queueEmpty { return Idle; }
          zeroStreamSince := Some(now);
        }
        return Nothing;
      }
      if pending.Some? {
        if pending.value.deadline <= now { return HeartbeatTimedOut; }
        return Nothing;
      }
      if lastInbound + timers.heartbeatIdle > now { return Nothing; }
      v := SendPing(nextNonce);
      pending := Some(Probe(nextNonce, now, now + timers.heartbeatResponse));
      nextNonce := NextNonce(nextNonce);
    }

    method MarkProbeCommitted(now: Instant)
      modifies this
      ensures Value() == Committed(old(Value()), now)
    {
      if pending.Some? {
        pending := Some(Probe(pending.value.nonce, now, now + timers.heartbeatResponse));
      }
    }
  }
}
