/**
 The transport actor as the program runs it: fields changed in place, one
 method per operation, each proved to do what the value model says.
 */
module PeerTransport {
  import opened Common
  import opened ErrorCodes
  import opened PeerFrames
  import opened PeerActor
  import opened PeerLifecycle
  import opened PeerRuns
  import opened FlushOrder

  /** An effect that keeps the stream as it is and says nothing. */
  lemma NothingChanges(a: Actor, s: StreamId)
    requires s in a.streams && ReadyExact(a.streams, a.ready)
    ensures forall e: Effect :: e.next == Some(a.streams[s]) && e.notes == [] ==>
              Apply(a, s, e) == if e.failed then a.Fail(WriterFailed) else a
  {
    assert a.streams[s := a.streams[s]] == a.streams;
    assert a.history + Records(s, []) == a.history;
    assert (if a.streams[s].queue == [] then a.ready - {s} else a.ready + {s}) == a.ready;
  }

  lemma NewStreamReady(streams: map<StreamId, Stream>, ready: set<StreamId>, s: StreamId, st: Stream,
                       local: Endpoint, nextCounter: nat, highest: Option<nat>)
    requires ReadyExact(streams, ready) && IdsUsed(local, nextCounter, highest, streams)
    requires FreshId(local, nextCounter, highest, s) && st.queue == []
    ensures ReadyExact(streams[s := st], ready)
  {
    assert s !in streams;
  }

  function ReplyTo(a: Actor, s: StreamId, c: StreamCommand): Reply {
    if s in a.streams then CommandOn(a.config, a.local, s, a.streams[s], c).reply else Done
  }

  /** Cancelling an OPEN answers as resetting its stream does; without one there is nothing to do. */
  function CancelReply(a: Actor, id: OpenIdentity): Reply {
    if OwnedBy(a, id) == {} then Done
    else ReplyTo(a, Least(OwnedBy(a, id)), CmdReset(Cancelled, a.config.text(OpenCancelled)))
  }

  /** A stream command carried out; on an unknown stream it is a late no-op. */
  function Commanded(a: Actor, s: StreamId, c: StreamCommand): Actor {
    if s in a.streams then Apply(a, s, CommandOn(a.config, a.local, s, a.streams[s], c)) else a
  }

  /** A frame addressed to stream `s`; unknown streams ignore it. */
  function Inbound(a: Actor, s: StreamId, f: PeerFrame): Actor {
    if s in a.streams then Apply(a, s, InboundOn(a.config, a.local, s, a.streams[s], f)) else a
  }

  function DueStreams(a: Actor, now: Instant): set<StreamId> {
    set s | s in a.streams && Due(a.streams[s], now)
  }

  /** One `DoExpire` per stream. */
  function Expiries(ids: seq<StreamId>, now: Instant): seq<Action> {
    seq(|ids|, i requires 0 <= i < |ids| => DoExpire(ids[i], now))
  }

  lemma ExpiriesStep(a: Actor, ids: seq<StreamId>, i: nat, now: Instant)
    requires i < |ids| && Possible(a, Expiries(ids[..i], now))
    ensures Possible(a, Expiries(ids[..i + 1], now))
    ensures After(a, Expiries(ids[..i + 1], now)) == Next(After(a, Expiries(ids[..i], now)), DoExpire(ids[i], now))
  {
    RunAppend(a, Expiries(ids[..i], now), DoExpire(ids[i], now));
    assert Expiries(ids[..i + 1], now) == Expiries(ids[..i], now) + [DoExpire(ids[i], now)];
  }

  /** `b` is `a` after one `DoExpire` for each of the first `i` streams of `ids`. */
  ghost predicate ExpiredTo(a: Actor, b: Actor, ids: seq<StreamId>, i: nat, now: Instant) {
    i <= |ids| && Possible(a, Expiries(ids[..i], now)) && b == After(a, Expiries(ids[..i], now))
  }

  lemma ExpiredOneMore(a: Actor, b: Actor, ids: seq<StreamId>, i: nat, now: Instant)
    requires i < |ids| && ExpiredTo(a, b, ids, i, now) && ids[i] in b.streams && Due(b.streams[ids[i]], now)
    ensures ExpiredTo(a, Apply(b, ids[i], ExpireOn(b.config, ids[i], b.streams[ids[i]])), ids, i + 1, now)
  {
    ExpiriesStep(a, ids, i, now);
  }

  ghost function Owners(streams: map<StreamId, Stream>, ids: seq<StreamId>): set<OpenIdentity> {
    set s | s in ids && s in streams :: streams[s].relay.owner
  }

  function QueuesOf(streams: map<StreamId, Stream>): Queues { map s | s in streams :: streams[s].queue }

  /** A property of actors that no step of the flush or of the writer task can break. */
  ghost predicate Stable(r: Actor -> bool) {
    && (forall a, s :: r(a) ==> r(PumpStream(a, s)))
    && (forall a, s :: r(a) ==> r(RetireStream(a, s)))
    && (forall a: Actor :: r(a) && a.writer != [] ==> r(Transmitted(a)))
    && (forall a :: r(a) ==> r(WriterEnded(a)))
  }

  function Transmitted(a: Actor): Actor requires a.writer != [] { a.(writer := a.writer[1..]) }

  function WriterEnded(a: Actor): Actor { a.(writer := [], writerClosed := true) }

  /** Whatever the actor's actions preserve is stable; reachability is an example. */
  lemma ActionsAreStable(r: Actor -> bool)
    requires forall a, x :: r(a) && Enabled(a, x) ==> r(Next(a, x))
    ensures Stable(r)
  {
    forall a, s | r(a) ensures r(PumpStream(a, s)) { assert r(Next(a, DoPump(s))); }
    forall a, s | r(a) ensures r(RetireStream(a, s)) { assert r(Next(a, DoRetire(s))); }
    forall a: Actor | r(a) && a.writer != [] ensures r(Transmitted(a)) { assert r(Next(a, DoTransmit)); }
    forall a | r(a) ensures r(WriterEnded(a)) { assert r(Next(a, DoCloseWriter)); }
  }

  /** The streams `ids` have each given up their oldest frame. */
  ghost predicate Given(before: map<StreamId, Stream>, after: map<StreamId, Stream>, ids: seq<StreamId>) {
    && after.Keys == before.Keys
    && forall s :: s in before ==>
         after[s] == if s in ids && before[s].queue != [] then before[s].(queue := before[s].queue[1..]) else before[s]
  }

  /** The streams whose terminal frame was among those given up, in that order. */
  function Emptied(before: map<StreamId, Stream>, ids: seq<StreamId>): seq<StreamId> {
    if ids == [] then []
    else
      var s := ids[|ids| - 1];
      Emptied(before, ids[..|ids| - 1])
      + (if s in before && before[s].terminalQueued && |before[s].queue| == 1 then [s] else [])
  }

  /** Ready identifiers past the last one served. */
  function Above(ready: set<StreamId>, lower: Option<StreamId>): set<nat> {
    set s | s in ready && (lower.None? || lower.value < s)
  }

  /** The oldest frames of the streams `ids`, in that order. */
  function Heads(streams: map<StreamId, Stream>, ids: seq<StreamId>): seq<PeerFrame> {
    if ids == [] then []
    else
      var s := ids[|ids| - 1];
      Heads(streams, ids[..|ids| - 1]) + (if s in streams && streams[s].queue != [] then [streams[s].queue[0]] else [])
  }

  lemma HeadsOneMore(before: map<StreamId, Stream>, pass: seq<StreamId>, i: nat)
    requires IsPass(before, pass) && i < |pass|
    ensures pass[i] in before && before[pass[i]].queue != []
    ensures Heads(before, pass[..i + 1]) == Heads(before, pass[..i]) + [before[pass[i]].queue[0]]
  {
    assert pass[i] in pass;
    assert pass[..i + 1][..i] == pass[..i];
  }

  /** `pass` lists the streams that have frames, in ascending order. */
  ghost predicate IsPass(before: map<StreamId, Stream>, pass: seq<StreamId>) {
    && Ascends(pass)
    && forall x :: x in pass <==> x in before && before[x].queue != []
  }

  /** `i` turns of the pass are done; `lower` is the last stream served. */
  ghost predicate Underway(before: map<StreamId, Stream>, now: map<StreamId, Stream>, pass: seq<StreamId>,
                           i: nat, lower: Option<StreamId>, finished: seq<StreamId>) {
    && i <= |pass|
    && lower == (if i == 0 then None else Some(pass[i - 1]))
    && finished == Emptied(before, pass[..i])
    && Given(before, now, pass[..i])
  }

  /** The ready index yields, one by one, exactly the simple pass over the full map. */
  lemma NextReady(before: map<StreamId, Stream>, now: map<StreamId, Stream>, ready: set<StreamId>,
                  pass: seq<StreamId>, i: nat, lower: Option<StreamId>)
    requires IsPass(before, pass) && i <= |pass| && ReadyExact(now, ready) && Given(before, now, pass[..i])
    requires lower == if i == 0 then None else Some(pass[i - 1])
    ensures if i == |pass| then Above(ready, lower) == {}
            else Above(ready, lower) != {} && Least(Above(ready, lower)) == pass[i]
  {
    forall s: StreamId | s in Above(ready, lower) ensures s in pass[i..] {
      AfterServed(pass, i, s, lower);
    }
    if i < |pass| {
      assert pass[i] in pass && pass[i] !in pass[..i];
      assert pass[i] in Above(ready, lower);
      var least: StreamId := Least(Above(ready, lower));
      assert least in pass[i..];
    } else {
      assert pass[i..] == [];
    }
  }

  /** Serving the next stream of the pass advances it by one turn. */
  lemma TurnTaken(before: map<StreamId, Stream>, now: map<StreamId, Stream>, pass: seq<StreamId>,
                  i: nat, lower: Option<StreamId>, finished: seq<StreamId>)
    requires IsPass(before, pass) && Underway(before, now, pass, i, lower, finished) && i < |pass|
    ensures pass[i] in now && now[pass[i]] == before[pass[i]] && now[pass[i]].queue != []
    ensures
      var s := pass[i];
      var rest := now[s].queue[1..];
      Underway(before, now[s := now[s].(queue := rest)], pass, i + 1, Some(s),
               if rest == [] && now[s].terminalQueued then finished + [s] else finished)
  {
    var s := pass[i];
    assert s in pass && s !in pass[..i];
    assert pass[..i + 1] == pass[..i] + [s];
    GivenOneMore(before, now, pass[..i], s);
    EmptiedAppend(before, pass[..i], s);
  }

  lemma AfterServed(pass: seq<StreamId>, i: nat, s: StreamId, lower: Option<StreamId>)
    requires Ascends(pass) && i <= |pass| && lower == if i == 0 then None else Some(pass[i - 1])
    requires lower.None? || lower.value < s
    ensures s !in pass[..i] && (s in pass ==> s in pass[i..])
  {
    assert pass == pass[..i] + pass[i..];
  }

  lemma GivenOneMore(before: map<StreamId, Stream>, now: map<StreamId, Stream>, ids: seq<StreamId>, s: StreamId)
    requires Given(before, now, ids) && s in before && s !in ids && before[s].queue != []
    ensures Given(before, now[s := now[s].(queue := now[s].queue[1..])], ids + [s])
  {
  }

  lemma EmptiedAppend(before: map<StreamId, Stream>, ids: seq<StreamId>, s: StreamId)
    ensures Emptied(before, ids + [s]) ==
            Emptied(before, ids)
            + (if s in before && before[s].terminalQueued && |before[s].queue| == 1 then [s] else [])
  {
    assert (ids + [s])[..|ids|] == ids;
  }

  ghost predicate AllSpent(streams: map<StreamId, Stream>, ids: seq<StreamId>) {
    forall s :: s in ids ==> s in streams && streams[s].terminalQueued && streams[s].queue == []
  }

  lemma {:induction false} EmptiedOk(before: map<StreamId, Stream>, ids: seq<StreamId>)
    requires Ascends(ids)
    ensures Ascends(Emptied(before, ids))
    ensures forall s :: s in Emptied(before, ids) <==>
                        s in ids && s in before && before[s].terminalQueued && |before[s].queue| == 1
  {
    if ids != [] {
      var init, s := ids[..|ids| - 1], ids[|ids| - 1];
      EmptiedOk(before, init);
      assert ids == init + [s];
      assert forall t :: t in init ==> t < s;
      SnocAscends(Emptied(before, init), s);
    }
  }

  /** The stream has handed over `n` frames, the terminal one among them. */
  predicate Spent(st: Stream, n: nat) { st.terminalQueued && st.queue != [] && n == |st.queue| }

  /** What `n` turns made of stream `s`: gone if spent, otherwise short of its `n` oldest frames. */
  ghost predicate Fate(st: Stream, now: map<StreamId, Stream>, s: StreamId, n: nat) {
    if Spent(st, n) then s !in now else s in now && n <= |st.queue| && now[s] == st.(queue := st.queue[n..])
  }

  ghost predicate Progressed(before: map<StreamId, Stream>, now: map<StreamId, Stream>, turns: seq<StreamId>) {
    now.Keys <= before.Keys && forall s :: s in before ==> Fate(before[s], now, s, Count(turns, s))
  }

  lemma PrefixAscends(pass: seq<StreamId>, n: nat)
    requires Ascends(pass) && n <= |pass|
    ensures Ascends(pass[..n]) && forall x :: x in pass[..n] ==> x in pass
  {
  }

  lemma PassFinishes(now: map<StreamId, Stream>, after: map<StreamId, Stream>, pass: seq<StreamId>, n: nat)
    requires IsPass(now, pass) && n <= |pass| && Given(now, after, pass[..n])
    ensures Ascends(Emptied(now, pass[..n])) && AllSpent(after, Emptied(now, pass[..n]))
    ensures forall s :: s in Emptied(now, pass[..n]) <==>
                        s in after && s in pass[..n] && after[s].terminalQueued && after[s].queue == []
  {
    PrefixAscends(pass, n);
    EmptiedOk(now, pass[..n]);
    forall s | s in pass[..n] ensures s in now && now[s].queue != [] { assert s in pass; }
  }

  lemma FateAfter(before: map<StreamId, Stream>, now: map<StreamId, Stream>, after: map<StreamId, Stream>,
                  turns: seq<StreamId>, pass: seq<StreamId>, n: nat, s: StreamId)
    requires Progressed(before, now, turns) && IsPass(now, pass) && n <= |pass| && Given(now, after, pass[..n])
    requires s in before
    ensures Fate(before[s], after - (set x | x in Emptied(now, pass[..n])), s, Count(turns + pass[..n], s))
  {
    assert Fate(before[s], now, s, Count(turns, s));
    PassFinishes(now, after, pass, n);
    PrefixAscends(pass, n);
    CountAscending(pass[..n], s);
    CountConcat(turns, pass[..n], s);
    if s in pass[..n] { assert s in pass; }
  }

  /** A pass, then the retirement of what it finished, keeps the account. */
  lemma RoundProgress(before: map<StreamId, Stream>, now: map<StreamId, Stream>, after: map<StreamId, Stream>,
                      turns: seq<StreamId>, pass: seq<StreamId>, n: nat)
    requires Progressed(before, now, turns) && IsPass(now, pass) && n <= |pass| && Given(now, after, pass[..n])
    ensures Progressed(before, after - (set s | s in Emptied(now, pass[..n])), turns + pass[..n])
  {
    var left := after - (set s | s in Emptied(now, pass[..n]));
    forall s | s in before ensures Fate(before[s], left, s, Count(turns + pass[..n], s)) {
      FateAfter(before, now, after, turns, pass, n, s);
    }
  }

  lemma RoundLoad(now: map<StreamId, Stream>, after: map<StreamId, Stream>, pass: seq<StreamId>)
    requires IsPass(now, pass) && Given(now, after, pass)
    ensures SameLoad(Tails(QueuesOf(now)), QueuesOf(after - (set s | s in Emptied(now, pass))))
  {
    assert pass[..|pass|] == pass;
    PassFinishes(now, after, pass, |pass|);
  }

  /** `left` is the schedule still to come. */
  ghost predicate Remaining(streams: map<StreamId, Stream>, k: nat, left: seq<StreamId>) {
    Bounded(QueuesOf(streams), k) && left == Schedule(QueuesOf(streams), k)
  }

  lemma NextPass(now: map<StreamId, Stream>, k: nat, left: seq<StreamId>) returns (pass: seq<StreamId>)
    requires Remaining(now, k, left)
    ensures IsPass(now, pass) && pass <= left && (pass == [] ==> left == [])
    ensures pass == FullPass(QueuesOf(now))
  {
    var q := QueuesOf(now);
    pass := FullPass(q);
    FullPassOk(q);
    if pass == [] {
      NothingLeft(q, k);
    } else {
      SomethingLeft(q, k);
      TailsBounded(q, k);
      ScheduleStep(q, k);
    }
  }

  lemma RoundDone(now: map<StreamId, Stream>, after: map<StreamId, Stream>, pass: seq<StreamId>,
                  k: nat, left: seq<StreamId>)
    requires Remaining(now, k, left) && pass == FullPass(QueuesOf(now)) && pass != []
    requires IsPass(now, pass) && Given(now, after, pass)
    ensures k > 0 && pass <= left
    ensures Remaining(after - (set s | s in Emptied(now, pass)), k - 1, left[|pass|..])
  {
    RoundLoad(now, after, pass);
    PassThenRest(QueuesOf(now), QueuesOf(after - (set s | s in Emptied(now, pass))), k);
  }

  /** Since `start` the writer has got exactly the frames of the turns `sent`. */
  ghost predicate HandedOver(handed: seq<PeerFrame>, start: seq<PeerFrame>, before: map<StreamId, Stream>,
                             sent: seq<StreamId>) {
    TurnsFit(QueuesOf(before), sent) && handed == start + FramesOf(QueuesOf(before), sent)
  }

  lemma NextHead(before: map<StreamId, Stream>, now: map<StreamId, Stream>, turns: seq<StreamId>, pass: seq<StreamId>,
                 i: nat)
    requires Progressed(before, now, turns) && IsPass(now, pass) && i < |pass|
    ensures pass[i] in before && Count(turns + pass[..i], pass[i]) < |before[pass[i]].queue|
    ensures pass[i] in now && now[pass[i]].queue != []
    ensures now[pass[i]].queue[0] == before[pass[i]].queue[Count(turns + pass[..i], pass[i])]
  {
    var s := pass[i];
    assert s in pass;
    assert Fate(before[s], now, s, Count(turns, s));
    PrefixAscends(pass, i);
    assert s !in pass[..i];
    CountAscending(pass[..i], s);
    CountConcat(turns, pass[..i], s);
  }

  lemma Regroup(a: seq<PeerFrame>, b: seq<PeerFrame>, c: seq<PeerFrame>)
    ensures a + b + c == a + (b + c)
  {
  }

  lemma OneMoreTurn(turns: seq<StreamId>, pass: seq<StreamId>, i: nat)
    requires i < |pass|
    ensures turns + pass[..i + 1] == turns + pass[..i] + [pass[i]]
  {
    assert pass[..i + 1] == pass[..i] + [pass[i]];
  }

  lemma OneMoreFrame(q: Queues, ids: seq<StreamId>, s: StreamId, frames: seq<PeerFrame>, heads: seq<PeerFrame>)
    requires TurnsFit(q, ids) && s in q && Count(ids, s) < |q[s]| && FramesOf(q, ids) == frames + heads
    ensures TurnsFit(q, ids + [s])
    ensures FramesOf(q, ids + [s]) == frames + (heads + [q[s][Count(ids, s)]])
  {
    FramesAppend(q, ids, s);
    Regroup(frames, heads, [q[s][Count(ids, s)]]);
  }

  lemma {:induction false} PassFrames(before: map<StreamId, Stream>, now: map<StreamId, Stream>, turns: seq<StreamId>,
                                      pass: seq<StreamId>, n: nat, frames: seq<PeerFrame>)
    requires Progressed(before, now, turns) && IsPass(now, pass) && n <= |pass|
    requires TurnsFit(QueuesOf(before), turns) && frames == FramesOf(QueuesOf(before), turns)
    ensures TurnsFit(QueuesOf(before), turns + pass[..n])
    ensures FramesOf(QueuesOf(before), turns + pass[..n]) == frames + Heads(now, pass[..n])
    decreases n
  {
    if n == 0 {
      assert turns + pass[..0] == turns;
    } else {
      var i := n - 1;
      PassFrames(before, now, turns, pass, i, frames);
      NextHead(before, now, turns, pass, i);
      OneMoreFrame(QueuesOf(before), turns + pass[..i], pass[i], frames, Heads(now, pass[..i]));
      HeadsOneMore(now, pass, i);
      OneMoreTurn(turns, pass, i);
    }
  }

  lemma PassHandsOver(before: map<StreamId, Stream>, now: map<StreamId, Stream>, turns: seq<StreamId>,
                      pass: seq<StreamId>, m: nat, start: seq<PeerFrame>, earlier: seq<PeerFrame>,
                      handed: seq<PeerFrame>)
    returns (sent: seq<StreamId>)
    requires Progressed(before, now, turns) && IsPass(now, pass) && m <= |pass|
    requires HandedOver(earlier, start, before, turns) && handed == earlier + Heads(now, pass[..m])
    ensures sent == turns + pass[..m] && HandedOver(handed, start, before, sent)
  {
    sent := turns + pass[..m];
    var frames := FramesOf(QueuesOf(before), turns);
    PassFrames(before, now, turns, pass, m, frames);
    Regroup(start, frames, Heads(now, pass[..m]));
  }

  lemma WholeRound(now: map<StreamId, Stream>, after: map<StreamId, Stream>, pass: seq<StreamId>, n: nat,
                   k: nat, left: seq<StreamId>)
    requires Remaining(now, k, left) && pass == FullPass(QueuesOf(now)) && pass != [] && n == |pass|
    requires IsPass(now, pass) && Given(now, after, pass[..n])
    ensures k > 0 && pass <= left
    ensures Remaining(after - (set s | s in Emptied(now, pass[..n])), k - 1, left[n..])
  {
    assert pass[..n] == pass;
    RoundDone(now, after, pass, k, left);
  }

  lemma TakeTurns(turns: seq<StreamId>, pass: seq<StreamId>, n: nat, left: seq<StreamId>)
    requires pass <= left && n <= |pass|
    ensures turns + pass[..n] + left[n..] == turns + left
  {
    assert left == pass[..n] + left[n..];
  }

  /** Where a round that served the first `n` streams of its pass leaves the schedule. */
  lemma RoundOutcome(before: map<StreamId, Stream>, now: map<StreamId, Stream>, after: map<StreamId, Stream>,
                     turns: seq<StreamId>, pass: seq<StreamId>, n: nat, k: nat, left: seq<StreamId>)
    returns (done: seq<StreamId>, todo: seq<StreamId>)
    requires Remaining(now, k, left) && Progressed(before, now, turns)
    requires pass == FullPass(QueuesOf(now)) && IsPass(now, pass) && pass <= left && (pass == [] ==> left == [])
    requires n <= |pass| && Given(now, after, pass[..n])
    ensures done + todo == turns + left && done == turns + pass[..n]
    ensures Progressed(before, after - (set s | s in Emptied(now, pass[..n])), done)
    ensures n == |pass| && n == 0 ==> todo == []
    ensures n == |pass| && n > 0 ==> k > 0 && Remaining(after - (set s | s in Emptied(now, pass[..n])), k - 1, todo)
  {
    done, todo := turns + pass[..n], left[n..];
    TakeTurns(turns, pass, n, left);
    RoundProgress(before, now, after, turns, pass, n);
    if n == |pass| && n > 0 { WholeRound(now, after, pass, n, k, left); }
  }

  /** The books after a round in which `n` streams had their turn and the writer took `m` frames. */
  lemma RoundAccount(before: map<StreamId, Stream>, now: map<StreamId, Stream>, after: map<StreamId, Stream>,
                     turns: seq<StreamId>, pass: seq<StreamId>, n: nat, m: nat, k: nat, left: seq<StreamId>,
                     start: seq<PeerFrame>, earlier: seq<PeerFrame>, handed: seq<PeerFrame>)
    returns (done: seq<StreamId>, todo: seq<StreamId>, sent: seq<StreamId>)
    requires Remaining(now, k, left) && Progressed(before, now, turns)
    requires pass == FullPass(QueuesOf(now)) && IsPass(now, pass) && pass <= left && (pass == [] ==> left == [])
    requires m <= n <= m + 1 && n <= |pass| && Given(now, after, pass[..n])
    requires HandedOver(earlier, start, before, turns) && handed == earlier + Heads(now, pass[..m])
    ensures done + todo == turns + left
    ensures Progressed(before, after - (set s | s in Emptied(now, pass[..n])), done)
    ensures n == |pass| && n == 0 ==> todo == []
    ensures n == |pass| && n > 0 ==> k > 0 && Remaining(after - (set s | s in Emptied(now, pass[..n])), k - 1, todo)
    ensures HandedOver(handed, start, before, sent)
    ensures if n == m then sent == done else sent < done && |done| == |sent| + 1
  {
    sent := PassHandsOver(before, now, turns, pass, m, start, earlier, handed);
    done, todo := RoundOutcome(before, now, after, turns, pass, n, k, left);
    if n == m + 1 { OneShort(turns, pass, m); }
  }

  lemma OneShort(turns: seq<StreamId>, pass: seq<StreamId>, m: nat)
    requires m < |pass|
    ensures turns + pass[..m] < turns + pass[..m + 1] && |turns + pass[..m + 1]| == |turns + pass[..m]| + 1
  {
    assert (turns + pass[..m + 1])[..|turns| + m] == turns + pass[..m];
  }

  datatype Loss = Loss(s: StreamId, owner: OpenIdentity, progress: Progress)

  function Losses(streams: map<StreamId, Stream>, ids: seq<StreamId>): seq<Loss> {
    if ids == [] then []
    else
      var s := ids[|ids| - 1];
      Losses(streams, ids[..|ids| - 1])
      + (if s in streams then [Loss(s, streams[s].relay.owner, streams[s].progress)] else [])
  }

  function LossRecords(losses: seq<Loss>): seq<Record> {
    seq(|losses|, i requires 0 <= i < |losses| => On(losses[i].s, StreamLost(losses[i].owner, losses[i].progress)))
  }

  lemma LossesAppend(streams: map<StreamId, Stream>, ids: seq<StreamId>, s: StreamId)
    ensures Losses(streams, ids + [s]) ==
            Losses(streams, ids) + (if s in streams then [Loss(s, streams[s].relay.owner, streams[s].progress)] else [])
    ensures Owners(streams, ids + [s]) ==
            Owners(streams, ids) + (if s in streams then {streams[s].relay.owner} else {})
  {
    assert (ids + [s])[..|ids|] == ids;
    var longer := ids + [s];
    if s in streams {
      assert s in longer;
    }
    assert forall t :: t in longer <==> t in ids || t == s;
  }

  lemma FirstOwned(a: Actor, id: OpenIdentity, ids: seq<StreamId>, i: nat)
    requires Ascends(ids) && (forall s :: s in ids <==> s in a.streams) && i < |ids|
    requires forall j :: 0 <= j < i ==> ids[j] in a.streams && a.streams[ids[j]].relay.owner != id
    requires ids[i] in a.streams && a.streams[ids[i]].relay.owner == id
    ensures OwnedBy(a, id) != {} && Least(OwnedBy(a, id)) == ids[i]
  {
    assert ids[i] in OwnedBy(a, id);
    var least: StreamId := Least(OwnedBy(a, id));
    assert least in ids;
  }

  class TransportActor {
    const config: Config
    const peerGateway: Uuid
    const local: Endpoint
    var nextCounter: nat
    var highest: Option<nat>
    var streams: map<StreamId, Stream>
    var ready: set<StreamId>
    var writer: seq<PeerFrame>
    var writerClosed: bool
    var activeOpens: set<OpenIdentity>
    var streamCount: int
    var failure: Option<CloseReason>
    ghost var history: seq<Record>
    ghost var handed: seq<PeerFrame>   // every frame the writer has accepted

    ghost function Value(): Actor
      reads this
    {
      Actor(config, peerGateway, local, nextCounter, highest, streams, ready, writer, writerClosed,
            activeOpens, streamCount, failure, history)
    }

    ghost predicate Valid()
      reads this
    {
      ReadyExact(streams, ready)
    }

    constructor (config: Config, peerGateway: Uuid, local: Endpoint, active: set<OpenIdentity>)
      ensures Value() == NewActor(config, peerGateway, local, active) && Valid()
    {
      this.config, this.peerGateway, this.local := config, peerGateway, local;
      nextCounter, highest := 0, None;
      streams, ready := map[], {};
      writer, writerClosed := [], false;
      activeOpens, streamCount, failure := active, 0, None;
      history := [];
      handed := [];
    }

    // ------------------------------------------------------------- state.rs

    method FailTransport(reason: CloseReason)
      modifies this`failure
      ensures Value() == old(Value()).Fail(reason)
    {
      if failure.None? { failure := Some(reason); }
    }

    method TrySend(frame: PeerFrame) returns (verdict: SendResult)
      modifies this`writer, this`handed
      ensures verdict == WriterVerdict(old(Value()))
      ensures writer == if verdict == Sent then old(writer) + [frame] else old(writer)
      ensures handed == if verdict == Sent then old(handed) + [frame] else old(handed)
    {
      if writerClosed {
        verdict := Closed;
      } else if |writer| >= config.writerCapacity {
        verdict := Full;
      } else {
        writer := writer + [frame];
        handed := handed + [frame];
        verdict := Sent;
      }
    }

    method EnqueueStreamFrame(s: StreamId, frame: PeerFrame, terminal: bool) returns (refused: Option<PeerFailure>)
      requires s in streams && Valid()
      modifies this`streams, this`ready
      ensures match Enqueue(config, old(streams)[s], frame, terminal)
              case NotQueued(failure) => refused == Some(failure) && streams == old(streams) && ready == old(ready)
              case Queued(st) =>
                && refused == None && streams == old(streams)[s := st]
                && ready == if st.queue == [] then old(ready) - {s} else old(ready) + {s}
      ensures Valid()
    {
      var st := streams[s];
      if st.terminalQueued {
        if terminal {
          streams := streams[s := st.(deadline := None)];
          return None;
        }
        return Some(PeerFailure(FailedPrecondition, MaybeObserved, config.text(TerminalAlreadyQueued)));
      }
      if |st.queue| >= config.streamQueueCapacity {
        return Some(PeerFailure(ResourceExhausted, MaybeObserved, config.text(StreamQueueFull)));
      }
      st := st.(queue := st.queue + [frame]);
      ready := ready + {s};
      st := st.(terminalQueued := terminal);
      if terminal { st := st.(deadline := None); }
      streams := streams[s := st];
      return None;
    }

    /** The stream leaves: index, identity and counter go with it. */
    method FinishStream(s: StreamId)
      requires Valid() && s in streams
      modifies this`ready, this`streams, this`activeOpens, this`streamCount, this`history
      ensures Value() == Apply(old(Value()), s, Leave(old(streams)[s], [])) && Valid()
    {
      ready := ready - {s};
      var st := streams[s];
      streams := streams - {s};
      activeOpens := activeOpens - {st.relay.owner};
      streamCount := streamCount - 1;
      history := history + [On(s, StreamEnded(st.relay.owner))];
      assert Records(s, [] + [StreamEnded(st.relay.owner)]) == [On(s, StreamEnded(st.relay.owner))];
    }

    // ----------------------------------------------------------- command.rs

    /** Adds a stream that nobody has used yet. */
    method InsertStream(s: StreamId, st: Stream, ghost notes: seq<Note>)
      requires Valid() && FreshId(local, nextCounter, highest, s) && st.queue == []
      requires IdsUsed(local, nextCounter, highest, streams)
      modifies this`streams, this`streamCount, this`history
      ensures Value() == Insert(old(Value()), s, st, notes) && Valid()
    {
      NewStreamReady(streams, ready, s, st, local, nextCounter, highest);
      streams := streams[s := st];
      streamCount := streamCount + 1;
      history := history + Records(s, notes);
    }

    method Open(q: OpenRequest, now: Instant) returns (reply: OpenReply)
      requires Valid() && IdsUsed(local, nextCounter, highest, streams)
      modifies this
      ensures reply == OpenReplyFor(old(Value())) && Valid()
      ensures reply.OpenDone? ==> Value() == OpenStream(old(Value()), q, now)
      ensures reply.OpenRefused? ==>
                Value().(history := history + [AttemptEnded(q.openIdentity)]) == OpenStream(old(Value()), q, now)
    {
      if |streams| >= config.maxStreams {
        activeOpens := activeOpens - {q.openIdentity};
        return OpenRefused(PeerFailure(ResourceExhausted, NotObserved, config.text(StreamLimitReached)));
      }
      if nextCounter > MAX_COUNTER {
        activeOpens := activeOpens - {q.openIdentity};
        return OpenRefused(PeerFailure(ResourceExhausted, NotObserved, config.text(StreamIdsExhausted)));
      }
      var s := MakeId(local, nextCounter);
      var verdict := TrySend(PeerFrame.Open(s, q.openIdentity, q.destination, q.relaySessionId, q.bindingId));
      if verdict != Sent {
        nextCounter := nextCounter + 1;
        activeOpens := activeOpens - {q.openIdentity};
        return OpenRefused(
          if verdict == Full then PeerFailure(ResourceExhausted, NotObserved, config.text(WriterFullBeforeOpen))
          else PeerFailure(Unavailable, NotObserved, config.text(ClosedBeforeOpen)));
      }
      InsertStream(s, OpeningStream(q.openIdentity, Local, Some(now + config.openResponseTimeout)),
                   [Inserted(q.openIdentity)]);
      nextCounter := nextCounter + 1;
      return OpenDone(s);
    }

    /** An OPEN command with its notice when the attempt ended here. */
    method HandleOpen(q: OpenRequest, now: Instant) returns (reply: OpenReply)
      requires Valid() && Enabled(Value(), DoOpen(q, now)) && IdsUsed(local, nextCounter, highest, streams)
      modifies this
      ensures Value() == Next(old(Value()), DoOpen(q, now)) && reply == OpenReplyFor(old(Value())) && Valid()
    {
      reply := Open(q, now);
      if reply.OpenRefused? { history := history + [AttemptEnded(q.openIdentity)]; }
    }

    method SendOpened(s: StreamId) returns (reply: Reply)
      requires Valid()
      modifies this
      ensures Value() == Commanded(old(Value()), s, CmdOpened) && reply == ReplyTo(old(Value()), s, CmdOpened)
      ensures Valid()
    {
      if s !in streams { return Done; }
      NothingChanges(Value(), s);
      if streams[s].terminalQueued { return Done; }
      if streams[s].origin != Remote { return Refused(Misuse(config, OpenedAnswersRemoteOpen)); }
      if streams[s].progress == ProgressOpened { return Done; }
      if streams[s].relay.phase != Opening { return Refused(Misuse(config, NotOpening)); }
      var relay := streams[s].relay.(phase := Streaming);
      var refused := EnqueueStreamFrame(s, PeerFrame.Opened(s), false);
      if refused.Some? { return Refused(refused.value); }
      streams := streams[s := streams[s].(relay := relay, progress := ProgressOpened)];
      assert streams == old(streams)[s := streams[s]];
      assert history + Records(s, []) == history;
      return Done;
    }

    /** Queues the stream's last frame; a full queue fails the transport. */
    method QueueTerminal(s: StreamId, frame: PeerFrame) returns (reply: Reply)
      requires Valid() && s in streams && !streams[s].terminalQueued
      modifies this
      ensures Value() == Apply(old(Value()), s, EnqueueTerminal(config, old(streams)[s], frame))
      ensures reply == EnqueueTerminal(config, old(streams)[s], frame).reply
      ensures Valid()
    {
      NothingChanges(Value(), s);
      var refused := EnqueueStreamFrame(s, frame, true);
      if refused.Some? {
        FailTransport(WriterFailed);
        return Refused(refused.value);
      }
      assert history + Records(s, []) == history;
      return Done;
    }

    method SendFailed(s: StreamId, failure: PeerFailure) returns (reply: Reply)
      requires Valid()
      modifies this
      ensures Value() == Commanded(old(Value()), s, CmdFailed(failure))
      ensures reply == ReplyTo(old(Value()), s, CmdFailed(failure))
      ensures Valid()
    {
      if s !in streams { return Done; }
      NothingChanges(Value(), s);
      if streams[s].terminalQueued { return Done; }
      if streams[s].origin != Remote || streams[s].progress == ProgressOpened {
        return Refused(Misuse(config, FailedAnswersRemoteOpen));
      }
      reply := QueueTerminal(s, PeerFrame.Failed(s, failure.code, failure.observation, failure.message));
    }

    method SendData(s: StreamId, payload: Bytes) returns (reply: Reply)
      requires Valid()
      modifies this
      ensures Value() == Commanded(old(Value()), s, CmdData(payload))
      ensures reply == ReplyTo(old(Value()), s, CmdData(payload))
      ensures Valid()
    {
      if s !in streams { return Done; }
      NothingChanges(Value(), s);
      if !streams[s].relay.AcceptsData(local) { return Refused(Misuse(config, DataNotAccepted)); }
      var refused := EnqueueStreamFrame(s, Data(s, payload), false);
      if refused.Some? { return Refused(refused.value); }
      history := history + [On(s, Accepted(payload))];
      assert Records(s, [Accepted(payload)]) == [On(s, Accepted(payload))];
      return Done;
    }

    method SendFin(s: StreamId) returns (reply: Reply)
      requires Valid()
      modifies this
      ensures Value() == Commanded(old(Value()), s, CmdFin) && reply == ReplyTo(old(Value()), s, CmdFin)
      ensures Valid()
    {
      if s !in streams { return Done; }
      NothingChanges(Value(), s);
      if streams[s].terminalQueued { return Done; }
      if streams[s].relay.phase != Streaming { return Refused(Misuse(config, FinNotAccepted)); }
      if streams[s].relay.Finished(local) { return Done; }
      var relay := streams[s].relay.Finish(local);
      var refused := EnqueueStreamFrame(s, Fin(s), relay.phase == Ended);
      if refused.Some? { return Refused(refused.value); }
      streams := streams[s := streams[s].(relay := relay)];
      assert streams == old(streams)[s := streams[s]];
      assert history + Records(s, []) == history;
      return Done;
    }

    method SendReset(s: StreamId, code: ErrorCode, message: Bytes) returns (reply: Reply)
      requires Valid()
      modifies this
      ensures Value() == Commanded(old(Value()), s, CmdReset(code, message))
      ensures reply == ReplyTo(old(Value()), s, CmdReset(code, message))
      ensures Valid()
    {
      if s !in streams { return Done; }
      NothingChanges(Value(), s);
      if streams[s].terminalQueued { return Done; }
      reply := QueueTerminal(s, Reset(s, code, message));
    }

    method SendClose(s: StreamId) returns (reply: Reply)
      requires Valid()
      modifies this
      ensures Value() == Commanded(old(Value()), s, CmdClose) && reply == ReplyTo(old(Value()), s, CmdClose)
      ensures Valid()
    {
      if s !in streams { return Done; }
      NothingChanges(Value(), s);
      if streams[s].terminalQueued { return Done; }
      if streams[s].relay.phase != Streaming {
        reply := SendReset(s, ProtocolError, config.text(CloseBeforeOpened));
        return;
      }
      reply := QueueTerminal(s, Close(s));
    }

    // ----------------------------------------------------------- inbound.rs

    method Emit(s: StreamId, event: PeerEvent)
      modifies this`history
      ensures history == old(history) + [On(s, Emitted(event))]
    {
      history := history + [On(s, Emitted(event))];
    }

    method Commit(frame: PeerFrame) returns (sent: bool)
      modifies this`writer, this`handed, this`failure
      ensures Value() == PeerActor.Commit(old(Value()), frame)
      ensures sent == (WriterVerdict(old(Value())) == Sent)
    {
      var verdict := TrySend(frame);
      sent := verdict == Sent;
      if !sent { FailTransport(WriterFailed); }
    }

    method RejectRemoteOpen(s: StreamId, code: ErrorCode, d: Diagnostic)
      modifies this`writer, this`handed, this`failure
      ensures Value() == PeerActor.RejectRemoteOpen(old(Value()), s, code, d)
    {
      var _ := Commit(PeerFrame.Failed(s, code, NotObserved, config.text(d)));
    }

    method ReceiveOpen(s: StreamId, q: OpenRequest)
      requires Valid() && IdsUsed(local, nextCounter, highest, streams)
      modifies this
      ensures Value() == PeerActor.ReceiveOpen(old(Value()), s, q) && Valid()
    {
      if !GuardAccepts(local.Opposite(), highest, s) {
        history := history + [On(s, GuardRefused)];
        assert Records(s, [GuardRefused]) == [On(s, GuardRefused)];
        RejectRemoteOpen(s, ProtocolError, StreamIdRefused);
        return;
      }
      if q.openIdentity.entryGateway != peerGateway {
        highest := Some(Counter(s));
        RejectRemoteOpen(s, PermissionDenied, EntryGatewayMismatch);
      } else if |streams| >= config.maxStreams {
        highest := Some(Counter(s));
        RejectRemoteOpen(s, ResourceExhausted, StreamLimitReached);
      } else if q.openIdentity in activeOpens {
        highest := Some(Counter(s));
        RejectRemoteOpen(s, AlreadyExists, IdentityActive);
      } else {
        activeOpens := activeOpens + {q.openIdentity};
        InsertStream(s, OpeningStream(q.openIdentity, Remote, None),
                     [Inserted(q.openIdentity),
                      Emitted(IncomingOpen(q.openIdentity, q.destination, q.relaySessionId, q.bindingId))]);
        highest := Some(Counter(s));
      }
    }

    method ProtocolReset(s: StreamId, d: Diagnostic)
      requires Valid() && s in streams && !streams[s].terminalQueued
      modifies this
      ensures Value() == Apply(old(Value()), s, BreakProtocol(config, s, old(streams)[s], d)) && Valid()
    {
      history := history + [On(s, Note.ProtocolReset)];
      var reply := SendReset(s, ProtocolError, config.text(d));
      if reply.Done? { EmitTerminalReset(s, ProtocolError, config.text(d)); }
      assert old(history) + Records(s, BreakProtocol(config, s, old(streams)[s], d).notes) == history;
    }

    method EmitTerminalReset(s: StreamId, code: ErrorCode, message: Bytes)
      requires s in streams
      modifies this`history
      ensures history == old(history) + [On(s, TerminalReset(streams[s], code, message))]
    {
      var st := streams[s];
      if st.origin == Local && st.progress != ProgressOpened {
        Emit(s, FailedEvent(st.relay.owner, PeerFailure(code, MaybeObserved, message)));
      } else {
        Emit(s, ResetEvent(code, message));
      }
    }
  
    /** The stream's last event, after which it leaves. */
    method Depart(s: StreamId, ghost note: Note)
      requires Valid() && s in streams && history != [] && history[|history| - 1] == On(s, note)
      modifies this
      ensures Value() == Apply(old(Value()).(history := old(history)[..|old(history)| - 1]), s,
                               Leave(old(streams)[s], [note]))
      ensures Valid()
    {
      ghost var before := history[..|history| - 1];
      ghost var owner := streams[s].relay.owner;
      FinishStream(s);
      assert Records(s, [] + [StreamEnded(owner)]) == [On(s, StreamEnded(owner))];
      assert Records(s, [note] + [StreamEnded(owner)]) == [On(s, note), On(s, StreamEnded(owner))];
      assert history == before + Records(s, [note] + [StreamEnded(owner)]);
    }

    method ReceiveOpened(s: StreamId)
      requires Valid()
      modifies this
      ensures Value() == Inbound(old(Value()), s, PeerFrame.Opened(s)) && Valid()
    {
      if s !in streams { return; }
      NothingChanges(Value(), s);
      if streams[s].terminalQueued { return; }
      if streams[s].origin != Local {
        ProtocolReset(s, OpenedForRemoteStream);
      } else if streams[s].progress == ProgressOpened {
      } else if streams[s].relay.phase != Opening {
        ProtocolReset(s, OpenedInvalidPhase);
      } else {
        var st := streams[s];
        st := st.(relay := st.relay.(phase := Streaming));
        st := st.(progress := ProgressOpened, deadline := None);
        streams := streams[s := st];
        Emit(s, OpenedEvent(st.relay.owner));
        assert Records(s, [Emitted(OpenedEvent(st.relay.owner))]) == [On(s, Emitted(OpenedEvent(st.relay.owner)))];
        assert (if st.queue == [] then ready - {s} else ready + {s}) == ready;
      }
    }

    method ReceiveFailed(s: StreamId, failure: PeerFailure)
      requires Valid()
      modifies this
      ensures Value() == Inbound(old(Value()), s,
                                 PeerFrame.Failed(s, failure.code, failure.observation, failure.message))
      ensures Valid()
    {
      if s !in streams { return; }
      NothingChanges(Value(), s);
      if streams[s].terminalQueued { return; }
      if streams[s].origin != Local || streams[s].progress == ProgressOpened {
        ProtocolReset(s, FailedInvalidPhase);
        return;
      }
      Emit(s, FailedEvent(streams[s].relay.owner, failure));
      Depart(s, Emitted(FailedEvent(streams[s].relay.owner, failure)));
    }

    method ReceiveData(s: StreamId, payload: Bytes)
      requires Valid()
      modifies this
      ensures Value() == Inbound(old(Value()), s, Data(s, payload)) && Valid()
    {
      if s !in streams { return; }
      NothingChanges(Value(), s);
      if streams[s].terminalQueued { return; }
      if !streams[s].relay.AcceptsData(local.Opposite()) {
        ProtocolReset(s, DataInvalidPhase);
        return;
      }
      Emit(s, DataEvent(payload));
      assert Records(s, [Emitted(DataEvent(payload))]) == [On(s, Emitted(DataEvent(payload)))];
      assert streams[s := streams[s]] == streams;
      assert (if streams[s].queue == [] then ready - {s} else ready + {s}) == ready;
    }

    method ReceiveFin(s: StreamId)
      requires Valid()
      modifies this
      ensures Value() == Inbound(old(Value()), s, Fin(s)) && Valid()
    {
      if s !in streams { return; }
      NothingChanges(Value(), s);
      if streams[s].terminalQueued { return; }
      if streams[s].relay.phase != Streaming {
        ProtocolReset(s, FinInvalidPhase);
        return;
      }
      if streams[s].relay.Finished(local.Opposite()) { return; }
      var st := streams[s].(relay := streams[s].relay.Finish(local.Opposite()));
      if st.relay.phase == Ended { st := st.(terminalQueued := true, deadline := None); }
      Emit(s, FinEvent);
      if st.relay.phase == Ended && st.queue == [] {
        Depart(s, Emitted(FinEvent));
      } else {
        streams := streams[s := st];
        assert Records(s, [Emitted(FinEvent)]) == [On(s, Emitted(FinEvent))];
        assert (if st.queue == [] then ready - {s} else ready + {s}) == ready;
      }
    }

    method ReceiveClose(s: StreamId)
      requires Valid()
      modifies this
      ensures Value() == Inbound(old(Value()), s, Close(s)) && Valid()
    {
      if s !in streams { return; }
      NothingChanges(Value(), s);
      if streams[s].terminalQueued { return; }
      if streams[s].relay.phase != Streaming {
        ProtocolReset(s, CloseBeforeOpened);
        return;
      }
      Emit(s, CloseEvent);
      Depart(s, Emitted(CloseEvent));
    }

    method ReceiveReset(s: StreamId, code: ErrorCode, message: Bytes)
      requires Valid()
      modifies this
      ensures Value() == Inbound(old(Value()), s, Reset(s, code, message)) && Valid()
    {
      if s !in streams { return; }
      NothingChanges(Value(), s);
      if streams[s].terminalQueued { return; }
      EmitTerminalReset(s, code, message);
      Depart(s, TerminalReset(streams[s], code, message));
    }

    /** False when the read loop must stop with a protocol error. */
    method HandleFrame(f: PeerFrame) returns (goOn: bool)
      requires Valid() && IdsUsed(local, nextCounter, highest, streams)
      modifies this
      ensures Value() == PeerActor.HandleFrame(old(Value()), f) && goOn == !FrameEndsLoop(old(Value()), f)
      ensures Valid()
    {
      goOn := true;
      match f
      case Open(s, id, destination, session, binding) =>
        ReceiveOpen(s, OpenRequest(id, destination, session, binding));
      case Opened(s) => ReceiveOpened(s);
      case Failed(s, code, observation, message) => ReceiveFailed(s, PeerFailure(code, observation, message));
      case Data(s, payload) => ReceiveData(s, payload);
      case Fin(s) => ReceiveFin(s);
      case Close(s) => ReceiveClose(s);
      case Reset(s, code, message) => ReceiveReset(s, code, message);
      case Ping(nonce) => goOn := Commit(Pong(nonce));
      case Pong(_) =>
      case _ => goOn := false;
    }
  
    method Cancel(id: OpenIdentity) returns (reply: Reply)
      requires Valid()
      modifies this
      ensures Value() == CancelOpen(old(Value()), id) && Valid()
      ensures reply == CancelReply(old(Value()), id)
    {
      var ids := Ascending(streams.Keys);
      AscendingOk(streams.Keys);
      var i := 0;
      while i < |ids| && streams[ids[i]].relay.owner != id
        invariant 0 <= i <= |ids|
        invariant forall j :: 0 <= j < i ==> streams[ids[j]].relay.owner != id
        invariant Value() == old(Value()) && Valid()
        invariant forall j :: 0 <= j < |ids| ==> ids[j] in streams
      {
        i := i + 1;
      }
      if i == |ids| {
        assert OwnedBy(Value(), id) == {} by {
          forall s | s in streams ensures streams[s].relay.owner != id { assert s in ids; }
        }
        return Done;
      }
      FirstOwned(Value(), id, ids, i);
      reply := SendReset(ids[i], Cancelled, config.text(OpenCancelled));
    }

    /** Due streams are reset in ascending order; a full queue fails the transport and ends the pass. */
    method ExpireOpenDeadlines(now: Instant) returns (ghost n: nat)
      requires Valid()
      modifies this
      ensures Valid()
      ensures var expired := Ascending(DueStreams(old(Value()), now));
              && n <= |expired| && ExpiredTo(old(Value()), Value(), expired, n, now)
              && (n < |expired| ==> failure.Some?)
    {
      var due := set s | s in streams && Due(streams[s], now);
      var expired := Ascending(due);
      assert due == DueStreams(Value(), now);
      AscendingOk(due);
      assert forall j :: 0 <= j < |expired| ==> expired[j] in due by {
        forall j | 0 <= j < |expired| ensures expired[j] in due { assert expired[j] in expired; }
      }
      n := 0;
      var i := 0;
      assert Expiries(expired[..0], now) == [];
      while i < |expired|
        invariant 0 <= i <= |expired| && n == i && Valid()
        invariant ExpiredTo(old(Value()), Value(), expired, i, now)
        invariant forall j :: i <= j < |expired| ==> expired[j] in streams && Due(streams[expired[j]], now)
      {
        var s := expired[i];
        ExpiredOneMore(old(Value()), Value(), expired, i, now);
        var failed := ExpireOne(s);
        i := i + 1;
        n := i;
        if failed { return; }
      }
    }

    method ExpireOne(s: StreamId) returns (failed: bool)
      requires Valid() && s in streams && !streams[s].terminalQueued
      modifies this
      ensures Value() == Apply(old(Value()), s, ExpireOn(config, s, old(streams)[s])) && Valid()
      ensures failed ==> failure.Some?
      ensures streams == old(streams)[s := streams[s]]
    {
      var owner := streams[s].relay.owner;
      var reply := QueueTerminal(s, Reset(s, DeadlineExceeded, config.text(OpenTimedOut)));
      if reply.Refused? { return true; }
      var failure := PeerFailure(DeadlineExceeded, MaybeObserved, config.text(OpenTimedOut));
      Emit(s, FailedEvent(owner, failure));
      assert old(history) + Records(s, []) == old(history);
      assert Records(s, [Emitted(FailedEvent(owner, failure))]) == [On(s, Emitted(FailedEvent(owner, failure)))];
      return false;
    }

    /** Gives back the identities of the streams `ids` of `taken` and lists them. */
    method ReleaseAll(taken: map<StreamId, Stream>, ids: seq<StreamId>) returns (losses: seq<Loss>)
      modifies this`activeOpens
      ensures losses == Losses(taken, ids)
      ensures activeOpens == old(activeOpens) - Owners(taken, ids)
    {
      losses := [];
      var i := 0;
      while i < |ids|
        invariant 0 <= i <= |ids|
        invariant losses == Losses(taken, ids[..i])
        invariant activeOpens == old(activeOpens) - Owners(taken, ids[..i])
      {
        var s := ids[i];
        assert ids[..i + 1] == ids[..i] + [s];
        LossesAppend(taken, ids[..i], s);
        if s in taken {
          activeOpens := activeOpens - {taken[s].relay.owner};
          losses := losses + [Loss(s, taken[s].relay.owner, taken[s].progress)];
        }
        i := i + 1;
      }
      assert ids[..|ids|] == ids;
    }

    /** Everything still live is lost, each stream once, in ascending order. */
    method DrainLosses() returns (losses: seq<Loss>)
      modifies this
      ensures losses == Losses(old(streams), Ascending(old(streams).Keys))
      ensures Value() == old(Value()).(
                streams := map[], ready := {},
                activeOpens := old(activeOpens) - Owners(old(streams), Ascending(old(streams).Keys)),
                streamCount := old(streamCount) - |old(streams)|,
                history := old(history) + LossRecords(losses))
    {
      ready := {};
      var taken := streams;
      streams := map[];
      losses := ReleaseAll(taken, Ascending(taken.Keys));
      streamCount := streamCount - |taken|;
      history := history + LossRecords(losses);
    }
  
    // -------------------------------------------------------------- flushing

    /** What the writer task may do at any moment: take queued frames, or end. */
    method WriterProgress(ghost r: Actor -> bool)
      requires Stable(r) && r(Value())
      modifies this`writer, this`writerClosed
      ensures r(Value())
    {
      var taken: nat :| taken <= |writer|;
      while taken > 0
        invariant taken <= |writer|
        invariant r(Value())
      {
        assert r(Transmitted(Value()));
        writer := writer[1..];
        taken := taken - 1;
      }
      if * {
        assert r(WriterEnded(Value()));
        writer := [];
        writerClosed := true;
      }
    }

    /** Pops the oldest frame of `s` and offers it to the writer; a full writer gets nothing. */
    method PumpOne(s: StreamId) returns (verdict: SendResult)
      requires Valid() && s in streams && streams[s].queue != []
      modifies this`streams, this`ready, this`writer, this`handed, this`failure
      ensures verdict == WriterVerdict(old(Value())) && Value() == PumpStream(old(Value()), s) && Valid()
      ensures verdict != Full ==>
                streams == old(streams)[s := old(streams)[s].(queue := old(streams)[s].queue[1..])]
      ensures handed == old(handed) + if verdict == Sent then [old(streams)[s].queue[0]] else []
      ensures verdict == Closed ==> failure.Some?
    {
      var frame, rest := streams[s].queue[0], streams[s].queue[1..];
      verdict := TrySend(frame);
      if verdict == Full { return; }
      streams := streams[s := streams[s].(queue := rest)];
      if rest == [] { ready := ready - {s}; }
      if verdict == Closed { FailTransport(WriterFailed); }
      assert history + Records(s, []) == history;
      assert (if rest == [] then old(ready) - {s} else old(ready) + {s}) == ready;
    }
  
    /** One turn of the flush: the writer may have progressed, then `s` is served. */
    method ServeOne(s: StreamId, ghost r: Actor -> bool) returns (verdict: SendResult)
      requires Valid() && s in streams && streams[s].queue != [] && Stable(r) && r(Value())
      modifies this`streams, this`ready, this`writer, this`writerClosed, this`handed, this`failure
      ensures Valid() && r(Value())
      ensures streams == if verdict == Full then old(streams)
                         else old(streams)[s := old(streams)[s].(queue := old(streams)[s].queue[1..])]
      ensures handed == old(handed) + if verdict == Sent then [old(streams)[s].queue[0]] else []
      ensures verdict == Closed ==> failure.Some?
    {
      WriterProgress(r);
      assert r(PumpStream(Value(), s));
      verdict := PumpOne(s);
    }

    /** Serves the first ready stream past `lower`, if there is one. */
    method ServeNext(lower: Option<StreamId>, finished: seq<StreamId>, ghost r: Actor -> bool,
                     ghost before: map<StreamId, Stream>, ghost pass: seq<StreamId>, ghost i: nat,
                     ghost start: seq<PeerFrame>)
      returns (served: Option<StreamId>, verdict: SendResult, nowFinished: seq<StreamId>, ghost next: nat,
               ghost sent: nat)
      requires Valid() && Stable(r) && r(Value())
      requires IsPass(before, pass) && Underway(before, streams, pass, i, lower, finished)
      requires handed == start + Heads(before, pass[..i])
      modifies this`streams, this`ready, this`writer, this`writerClosed, this`handed, this`failure
      ensures Valid() && r(Value())
      ensures next == if served.None? || verdict == Full then i else i + 1
      ensures served.None? ==> verdict == Sent && i == |pass|
      ensures next <= |pass| && Given(before, streams, pass[..next])
      ensures verdict != Closed ==> nowFinished == Emptied(before, pass[..next])
      ensures served.Some? && verdict == Sent ==> Underway(before, streams, pass, next, served, nowFinished)
      ensures sent == (if verdict == Closed then i else next) && handed == start + Heads(before, pass[..sent])
      ensures verdict == Closed ==> failure.Some?
    {
      served, verdict, nowFinished, next, sent := None, Sent, finished, i, i;
      NextReady(before, streams, ready, pass, i, lower);
      var above := Above(ready, lower);
      if above != {} {
        var s: StreamId := Least(above);
        served := Some(s);
        TurnTaken(before, streams, pass, i, lower, finished);
        HeadsOneMore(before, pass, i);
        Regroup(start, Heads(before, pass[..i]), [before[s].queue[0]]);
        verdict := ServeOne(s, r);
        if verdict != Full { next := i + 1; }
        if verdict == Sent { sent := i + 1; }
        if verdict == Sent && streams[s].queue == [] && streams[s].terminalQueued {
          nowFinished := finished + [s];
        }
      }
    }

    /**
     One pass of the flush over the ready index. It serves a prefix of the simple
     ascending pass over the whole stream map, all of it unless the writer
     refuses a frame; `finished` lists the streams whose last frame it moved. The
     writer gets the oldest frame of each stream served.
     */
    method FlushPass(ghost r: Actor -> bool, ghost pass: seq<StreamId>)
      returns (verdict: SendResult, moved: bool, finished: seq<StreamId>, ghost turns: nat, ghost sent: nat)
      requires Valid() && Stable(r) && r(Value()) && IsPass(streams, pass)
      modifies this`streams, this`ready, this`writer, this`writerClosed, this`handed, this`failure
      ensures Valid() && r(Value())
      ensures turns <= |pass| && (verdict == Sent ==> turns == |pass|)
      ensures Given(old(streams), streams, pass[..turns])
      ensures verdict != Closed ==> moved == (turns > 0) && finished == Emptied(old(streams), pass[..turns])
      ensures verdict == Closed ==> failure.Some?
      ensures turns == if verdict == Closed then sent + 1 else sent
      ensures handed == old(handed) + Heads(old(streams), pass[..sent])
    {
      verdict, moved, finished, turns, sent := Sent, false, [], 0, 0;
      var lower: Option<StreamId> := None;
      while true
        invariant Underway(old(streams), streams, pass, turns, lower, finished)
        invariant moved == (turns > 0) && verdict == Sent && Valid() && r(Value())
        invariant sent == turns && handed == old(handed) + Heads(old(streams), pass[..turns])
        decreases |pass| - turns
      {
        var served;
        served, verdict, finished, turns, sent :=
          ServeNext(lower, finished, r, old(streams), pass, turns, old(handed));
        if served.None? || verdict != Sent { return; }
        lower, moved := served, true;
      }
    }

    /** Ends the streams `ids`, whose last frame is gone. */
    method RetireAll(ids: seq<StreamId>, ghost r: Actor -> bool)
      requires Valid() && Stable(r) && r(Value()) && Ascends(ids) && AllSpent(streams, ids)
      modifies this`ready, this`streams, this`activeOpens, this`streamCount, this`history
      ensures Valid() && r(Value())
      ensures streams == old(streams) - (set s | s in ids)
    {
      var i := 0;
      while i < |ids|
        invariant 0 <= i <= |ids| && Valid() && r(Value())
        invariant streams == old(streams) - (set s | s in ids[..i])
      {
        var s := ids[i];
        assert s in ids && s !in ids[..i];
        assert ids[..i + 1] == ids[..i] + [s];
        assert r(RetireStream(Value(), s));
        FinishStream(s);
        i := i + 1;
      }
      assert ids[..|ids|] == ids;
    }

    /** One round of the flush: a pass, then the end of the streams it finished. */
    method FlushRound(ghost r: Actor -> bool, ghost before: map<StreamId, Stream>, ghost turns: seq<StreamId>,
                      ghost k: nat, ghost left: seq<StreamId>, ghost start: seq<PeerFrame>)
      returns (verdict: SendResult, moved: bool, ghost done: seq<StreamId>, ghost todo: seq<StreamId>,
               ghost sent: seq<StreamId>)
      requires Valid() && Stable(r) && r(Value())
      requires Remaining(streams, k, left) && Progressed(before, streams, turns)
      requires HandedOver(handed, start, before, turns)
      modifies this
      ensures Valid() && r(Value())
      ensures done + todo == turns + left
      ensures verdict == Closed ==> failure.Some?
      ensures verdict != Closed ==> Progressed(before, streams, done)
      ensures verdict == Sent && !moved ==> todo == []
      ensures verdict == Sent && moved ==> k > 0 && Remaining(streams, k - 1, todo)
      ensures HandedOver(handed, start, before, sent)
      ensures if verdict == Closed then sent < done && |done| == |sent| + 1 else sent == done
    {
      ghost var pass := NextPass(streams, k, left);
      ghost var n, m;
      var finished;
      verdict, moved, finished, n, m := FlushPass(r, pass);
      done, todo, sent :=
        RoundAccount(before, old(streams), streams, turns, pass, n, m, k, left, start, old(handed), handed);
      if verdict == Closed { return; }
      PassFinishes(old(streams), streams, pass, n);
      RetireAll(finished, r);
    }

    /**
     The whole flush. The writer gets the frames of the simple round-robin schedule
     over the full stream map, in that order; the flush stops early only when the
     writer refuses a frame. Every surviving stream keeps the frames that had no
     turn, and exactly the streams whose terminal frame left are ended, unless the
     writer has gone.
     */
    method FlushStreamQueues(ghost r: Actor -> bool, ghost bound: nat, ghost plan: seq<StreamId>)
      returns (ghost verdict: SendResult, ghost turns: seq<StreamId>, ghost sent: seq<StreamId>)
      requires Valid() && Stable(r) && r(Value()) && Remaining(streams, bound, plan)
      modifies this
      ensures Valid() && r(Value())
      ensures turns <= plan
      ensures verdict == Sent ==> turns == plan
      ensures verdict != Closed ==> Progressed(old(streams), streams, turns)
      ensures verdict == Closed ==> failure.Some?
      ensures HandedOver(handed, old(handed), old(streams), sent)
      ensures if verdict == Closed then sent < turns && |turns| == |sent| + 1 else sent == turns
    {
      ghost var k, left := bound, plan;
      turns, sent, verdict := [], [], Sent;
      while true
        invariant Valid() && r(Value()) && plan == turns + left
        invariant Remaining(streams, k, left) && Progressed(old(streams), streams, turns)
        invariant sent == turns && HandedOver(handed, old(handed), old(streams), sent)
        decreases k
      {
        var answer, moved;
        answer, moved, turns, left, sent := FlushRound(r, old(streams), turns, k, left, old(handed));
        verdict := answer;
        if answer != Sent || !moved { return; }
        k := k - 1;
      }
    }
  }
}
