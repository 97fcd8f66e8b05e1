/**
 The order in which queued frames reach the writer: rounds over the whole
 stream map in ascending order, one frame per nonempty queue.
 */
module FlushOrder {
  import opened Common
  import opened PeerFrames

  type Queues = map<StreamId, seq<PeerFrame>>

  // ------------------------------------------------------- ascending sequences

  predicate Ascends(ids: seq<StreamId>) { forall i, j :: 0 <= i < j < |ids| ==> ids[i] < ids[j] }

  /** The elements of a set in ascending order. */
  function Ascending(s: set<StreamId>): seq<StreamId>
    decreases |s|
  {
    if s == {} then []
    else
      var least: StreamId := Least(set x | x in s);
      [least] + Ascending(s - {least})
  }

  lemma ConsAscends(x: StreamId, ids: seq<StreamId>)
    requires Ascends(ids) && forall y :: y in ids ==> x < y
    ensures Ascends([x] + ids)
  {
    forall i, j | 0 <= i < j < |ids| + 1 ensures ([x] + ids)[i] < ([x] + ids)[j] {
      assert ([x] + ids)[j] == ids[j - 1];
      assert ids[j - 1] in ids;
    }
  }

  lemma SnocAscends(ids: seq<StreamId>, x: StreamId)
    requires Ascends(ids) && forall y :: y in ids ==> y < x
    ensures Ascends(ids + [x])
  {
    forall i, j | 0 <= i < j < |ids| + 1 ensures (ids + [x])[i] < (ids + [x])[j] {
      assert ids[i] in ids;
    }
  }

  lemma {:induction false} AscendingOk(s: set<StreamId>)
    ensures Ascends(Ascending(s)) && forall x :: x in Ascending(s) <==> x in s
    decreases |s|
  {
    if s != {} {
      var all: set<nat> := set x | x in s;
      var least: StreamId := Least(all);
      AscendingOk(s - {least});
      forall y | y in Ascending(s - {least}) ensures least < y { assert y in s && y in all; }
      ConsAscends(least, Ascending(s - {least}));
    }
  }

  /** Only one ascending sequence has a given set of elements. */
  lemma {:induction false} AscendingUnique(p: seq<StreamId>, q: seq<StreamId>)
    requires Ascends(p) && Ascends(q) && forall x :: x in p <==> x in q
    ensures p == q
  {
    if p != [] { assert p[0] in p; }
    if q != [] { assert q[0] in q; }
    if p != [] && q != [] {
      assert p[0] in q && q[0] in p;
      assert p[0] == q[0];
      assert forall x :: x in p[1..] <==> x in p && x != p[0];
      assert forall x :: x in q[1..] <==> x in q && x != q[0];
      AscendingUnique(p[1..], q[1..]);
    }
  }

  // ---------------------------------------------------------------- schedules

  /** One pass over `keys`: the streams that have something to send. */
  function PassOver(keys: seq<StreamId>, q: Queues): seq<StreamId> {
    if keys == [] then []
    else (if keys[0] in q && q[keys[0]] != [] then [keys[0]] else []) + PassOver(keys[1..], q)
  }

  lemma {:induction false} PassOverOk(keys: seq<StreamId>, q: Queues)
    ensures forall x :: x in PassOver(keys, q) <==> x in keys && x in q && q[x] != []
    ensures Ascends(keys) ==> Ascends(PassOver(keys, q))
  {
    if keys != [] {
      PassOverOk(keys[1..], q);
      assert keys == [keys[0]] + keys[1..];
      if Ascends(keys) {
        assert Ascends(keys[1..]);
        forall y | y in PassOver(keys[1..], q) ensures keys[0] < y { }
        ConsAscends(keys[0], PassOver(keys[1..], q));
      }
    }
  }

  /** The simple pass over the full stream map, in ascending order. */
  function FullPass(q: Queues): seq<StreamId> { PassOver(Ascending(q.Keys), q) }

  lemma FullPassOk(q: Queues)
    ensures Ascends(FullPass(q)) && forall x :: x in FullPass(q) <==> x in q && q[x] != []
  {
    AscendingOk(q.Keys);
    PassOverOk(Ascending(q.Keys), q);
  }

  function Tails(q: Queues): Queues { map s | s in q :: if q[s] == [] then [] else q[s][1..] }

  ghost predicate Bounded(q: Queues, k: nat) { forall s :: s in q ==> |q[s]| <= k }

  /** All the passes it takes to empty queues of at most `k` frames. */
  ghost function Schedule(q: Queues, k: nat): seq<StreamId>
    requires Bounded(q, k)
    decreases k
  {
    if k == 0 then [] else FullPass(q) + Schedule(Tails(q), k - 1)
  }

  /** How many of the turns `ids` belong to stream `s`. */
  function Count(ids: seq<StreamId>, s: StreamId): nat { multiset(ids)[s] }

  lemma CountConcat(p: seq<StreamId>, q: seq<StreamId>, s: StreamId)
    ensures Count(p + q, s) == Count(p, s) + Count(q, s)
  {
  }

  lemma CountAppend(ids: seq<StreamId>, x: StreamId, s: StreamId)
    ensures Count(ids + [x], s) == Count(ids, s) + (if x == s then 1 else 0)
  {
  }

  lemma {:induction false} CountAscending(ids: seq<StreamId>, s: StreamId)
    requires Ascends(ids)
    ensures Count(ids, s) == if s in ids then 1 else 0
  {
    if ids != [] {
      var init, last := ids[..|ids| - 1], ids[|ids| - 1];
      CountAscending(init, s);
      assert ids == init + [last];
      assert last !in init;
    }
  }

  lemma TailsBounded(q: Queues, k: nat)
    requires Bounded(q, k) && k > 0
    ensures Bounded(Tails(q), k - 1)
  {
  }

  lemma ScheduleStep(q: Queues, k: nat)
    requires Bounded(q, k) && k > 0 && Bounded(Tails(q), k - 1)
    ensures Schedule(q, k) == FullPass(q) + Schedule(Tails(q), k - 1)
  {
  }

  lemma OneTurnEach(q: Queues, s: StreamId)
    ensures Count(FullPass(q), s) == if s in q && q[s] != [] then 1 else 0
  {
    FullPassOk(q);
    CountAscending(FullPass(q), s);
  }

  /** Every queued frame gets exactly one turn. */
  lemma {:induction false} ScheduleCovers(q: Queues, k: nat, s: StreamId)
    requires Bounded(q, k)
    ensures Count(Schedule(q, k), s) == if s in q then |q[s]| else 0
    decreases k
  {
    if k > 0 {
      TailsBounded(q, k);
      ScheduleCovers(Tails(q), k - 1, s);
      ScheduleStep(q, k);
      CountConcat(FullPass(q), Schedule(Tails(q), k - 1), s);
      OneTurnEach(q, s);
    }
  }

  /** After `n` of the turns `ids`, a stream that still has frames is at most one turn behind another. */
  ghost predicate FairAt(ids: seq<StreamId>, q: Queues, n: nat, s: StreamId, t: StreamId) {
    n <= |ids| && s in q && Count(ids[..n], s) < |q[s]| ==> Count(ids[..n], t) <= Count(ids[..n], s) + 1
  }

  ghost predicate Fair(ids: seq<StreamId>, q: Queues) { forall n: nat, s, t :: FairAt(ids, q, n, s, t) }

  lemma FairInPass(q: Queues, rest: seq<StreamId>, n: nat, s: StreamId, t: StreamId)
    requires n <= |FullPass(q)|
    ensures FairAt(FullPass(q) + rest, q, n, s, t)
  {
    assert (FullPass(q) + rest)[..n] == FullPass(q)[..n];
    PrefixCount(FullPass(q), n, t);
    OneTurnEach(q, t);
  }

  /** After the first pass the remaining turns stand as far behind as before. */
  lemma FairLater(q: Queues, rest: seq<StreamId>, m: nat, s: StreamId, t: StreamId)
    requires m <= |rest| && FairAt(rest, Tails(q), m, s, t)
    ensures FairAt(FullPass(q) + rest, q, |FullPass(q)| + m, s, t)
  {
    assert (FullPass(q) + rest)[..|FullPass(q)| + m] == FullPass(q) + rest[..m];
    CountConcat(FullPass(q), rest[..m], s);
    CountConcat(FullPass(q), rest[..m], t);
    OneTurnEach(q, s);
    OneTurnEach(q, t);
  }

  lemma FairFromHere(q: Queues, rest: seq<StreamId>)
    requires Fair(rest, Tails(q))
    ensures Fair(FullPass(q) + rest, q)
  {
    forall n: nat, s, t ensures FairAt(FullPass(q) + rest, q, n, s, t) {
      if n <= |FullPass(q)| {
        FairInPass(q, rest, n, s, t);
      } else if n <= |FullPass(q) + rest| {
        assert FairAt(rest, Tails(q), n - |FullPass(q)|, s, t);
        FairLater(q, rest, n - |FullPass(q)|, s, t);
      }
    }
  }

  /** At no point is a stream that still has frames more than one turn behind another. */
  lemma {:induction false} ScheduleFair(q: Queues, k: nat)
    requires Bounded(q, k)
    ensures Fair(Schedule(q, k), q)
    decreases k
  {
    if k > 0 {
      TailsBounded(q, k);
      ScheduleFair(Tails(q), k - 1);
      FairFromHere(q, Schedule(Tails(q), k - 1));
      ScheduleStep(q, k);
    }
  }

  /** The streams with frames that come before `s` in every pass. */
  function ReadyBelow(q: Queues, s: StreamId): set<StreamId> { set x | x in q && q[x] != [] && x < s }

  function Members(ids: seq<StreamId>): set<StreamId> { set x | x in ids }

  lemma MembersSnoc(init: seq<StreamId>, last: StreamId)
    ensures Members(init + [last]) == Members(init) + {last}
  {
  }

  lemma {:induction false} AscendingSize(ids: seq<StreamId>)
    requires Ascends(ids)
    ensures |Members(ids)| == |ids|
  {
    if ids != [] {
      var init, last := ids[..|ids| - 1], ids[|ids| - 1];
      AscendingSize(init);
      assert ids == init + [last];
      MembersSnoc(init, last);
      assert last !in Members(init) by { assert forall x :: x in init ==> x < last; }
    }
  }

  /** In a full pass, the turn of a stream comes after one turn for each ready stream below it. */
  lemma TurnInPass(q: Queues, s: StreamId)
    requires s in q && q[s] != []
    ensures |ReadyBelow(q, s)| < |FullPass(q)| && FullPass(q)[|ReadyBelow(q, s)|] == s
  {
    var pass := FullPass(q);
    FullPassOk(q);
    var i :| 0 <= i < |pass| && pass[i] == s;
    assert Ascends(pass[..i]);
    AscendingSize(pass[..i]);
    assert ReadyBelow(q, s) == Members(pass[..i]) by {
      forall x | x in ReadyBelow(q, s) ensures x in pass[..i] {
        assert x in pass;
        var j :| 0 <= j < |pass| && pass[j] == x;
        assert j < i;
      }
    }
  }

  /**
   A flush starts at the lowest stream again, so it serves a ready stream exactly when it takes more turns than there
   are ready streams below: those can keep a stream waiting from flush to flush.
   */
  lemma ServedExactly(q: Queues, k: nat, turns: seq<StreamId>, s: StreamId)
    requires Bounded(q, k) && turns <= Schedule(q, k) && s in q && q[s] != []
    ensures s in turns <==> |turns| > |ReadyBelow(q, s)|
  {
    var pass, i := FullPass(q), |ReadyBelow(q, s)|;
    TurnInPass(q, s);
    FullPassOk(q);
    TailsBounded(q, k);
    ScheduleStep(q, k);
    if |turns| > i {
      assert turns[i] == s;
    } else {
      assert forall j :: 0 <= j < |turns| ==> turns[j] == pass[j];
    }
  }

  lemma {:induction false} PrefixCount(ids: seq<StreamId>, n: nat, s: StreamId)
    requires n <= |ids|
    ensures Count(ids[..n], s) <= Count(ids, s)
  {
    assert ids == ids[..n] + ids[n..];
    CountConcat(ids[..n], ids[n..], s);
  }

  /** The same streams have the same frames to send. */
  ghost predicate SameLoad(p: Queues, q: Queues) {
    && (forall s :: s in p && p[s] != [] ==> s in q && q[s] == p[s])
    && (forall s :: s in q && q[s] != [] ==> s in p && q[s] == p[s])
  }

  lemma SameLoadTails(p: Queues, q: Queues)
    requires SameLoad(p, q)
    ensures SameLoad(Tails(p), Tails(q))
  {
  }

  lemma SameLoadPass(p: Queues, q: Queues)
    requires SameLoad(p, q)
    ensures FullPass(p) == FullPass(q)
  {
    FullPassOk(p);
    FullPassOk(q);
    AscendingUnique(FullPass(p), FullPass(q));
  }

  /** Streams with nothing to send do not matter to the order. */
  lemma {:induction false} ScheduleIgnoresEmpty(p: Queues, q: Queues, k: nat)
    requires Bounded(p, k) && Bounded(q, k) && SameLoad(p, q)
    ensures Schedule(p, k) == Schedule(q, k)
    decreases k
  {
    if k > 0 {
      SameLoadPass(p, q);
      SameLoadTails(p, q);
      TailsBounded(p, k);
      TailsBounded(q, k);
      ScheduleStep(p, k);
      ScheduleStep(q, k);
      ScheduleIgnoresEmpty(Tails(p), Tails(q), k - 1);
    }
  }

  lemma NothingLeft(q: Queues, k: nat)
    requires Bounded(q, k) && FullPass(q) == []
    ensures Schedule(q, k) == []
  {
    FullPassOk(q);
    var ids := Schedule(q, k);
    if ids != [] {
      CountPositive(ids, ids[0]);
      ScheduleCovers(q, k, ids[0]);
    }
  }

  lemma LoadBounded(p: Queues, q: Queues, k: nat)
    requires Bounded(p, k) && SameLoad(p, q)
    ensures Bounded(q, k)
  {
  }

  lemma SomethingLeft(q: Queues, k: nat)
    requires Bounded(q, k) && FullPass(q) != []
    ensures k > 0
  {
    FullPassOk(q);
    assert FullPass(q)[0] in FullPass(q);
  }

  /** After a whole pass, and dropping streams left with nothing, the rest of the schedule remains. */
  lemma PassThenRest(q: Queues, rest: Queues, k: nat)
    requires Bounded(q, k) && SameLoad(Tails(q), rest) && FullPass(q) != []
    ensures k > 0 && Bounded(rest, k - 1) && Schedule(q, k) == FullPass(q) + Schedule(rest, k - 1)
  {
    SomethingLeft(q, k);
    TailsBounded(q, k);
    LoadBounded(Tails(q), rest, k - 1);
    ScheduleIgnoresEmpty(Tails(q), rest, k - 1);
    ScheduleStep(q, k);
  }

  // ------------------------------------------------------------------- frames

  /** Each turn in `ids` takes the oldest frame its stream still has. */
  ghost predicate TurnsFit(q: Queues, ids: seq<StreamId>) {
    forall s :: s in ids ==> s in q && Count(ids, s) <= |q[s]|
  }

  lemma InitFits(q: Queues, init: seq<StreamId>, last: StreamId)
    requires TurnsFit(q, init + [last])
    ensures TurnsFit(q, init) && last in q && Count(init, last) < |q[last]|
  {
    var ids := init + [last];
    assert ids[|init|] == last && last in ids;
    CountAppend(init, last, last);
    forall t | t in init ensures t in q && Count(init, t) <= |q[t]| { CountAppend(init, last, t); assert t in ids; }
  }

  /** The frames handed over when the streams take turns as in `ids`. */
  ghost function FramesOf(q: Queues, ids: seq<StreamId>): (fs: seq<PeerFrame>)
    requires TurnsFit(q, ids)
    ensures |fs| == |ids|
  {
    if ids == [] then []
    else
      var init, last := ids[..|ids| - 1], ids[|ids| - 1];
      assert init + [last] == ids;
      InitFits(q, init, last);
      FramesOf(q, init) + [q[last][Count(init, last)]]
  }

  lemma TurnsFitAppend(q: Queues, ids: seq<StreamId>, s: StreamId)
    requires TurnsFit(q, ids) && s in q && Count(ids, s) < |q[s]|
    ensures TurnsFit(q, ids + [s])
  {
    forall t | t in ids + [s] ensures t in q && Count(ids + [s], t) <= |q[t]| {
      CountAppend(ids, s, t);
      if t != s { assert t in ids; }
    }
  }

  lemma FramesAppend(q: Queues, ids: seq<StreamId>, s: StreamId)
    requires TurnsFit(q, ids) && s in q && Count(ids, s) < |q[s]|
    ensures TurnsFit(q, ids + [s])
    ensures FramesOf(q, ids + [s]) == FramesOf(q, ids) + [q[s][Count(ids, s)]]
  {
    TurnsFitAppend(q, ids, s);
    assert (ids + [s])[..|ids|] == ids;
  }

  lemma CountPositive(ids: seq<StreamId>, s: StreamId)
    ensures Count(ids, s) > 0 <==> s in ids
  {
  }

  /** The frames of one stream among those handed over, in order. */
  ghost function TurnsOf(ids: seq<StreamId>, fs: seq<PeerFrame>, s: StreamId): seq<PeerFrame>
    requires |ids| == |fs|
  {
    if ids == [] then []
    else TurnsOf(ids[..|ids| - 1], fs[..|fs| - 1], s) + (if ids[|ids| - 1] == s then [fs[|fs| - 1]] else [])
  }

  lemma TurnsOfAppend(ids: seq<StreamId>, fs: seq<PeerFrame>, last: StreamId, f: PeerFrame, s: StreamId)
    requires |ids| == |fs|
    ensures TurnsOf(ids + [last], fs + [f], s) == TurnsOf(ids, fs, s) + (if last == s then [f] else [])
  {
    assert (ids + [last])[..|ids|] == ids && (fs + [f])[..|fs|] == fs;
  }

  lemma FifoStep(init: seq<StreamId>, fs: seq<PeerFrame>, last: StreamId, f: PeerFrame, s: StreamId,
                 queue: seq<PeerFrame>)
    requires |init| == |fs| && Count(init + [last], s) <= |queue| && Count(init, s) <= |queue|
    requires TurnsOf(init, fs, s) == queue[..Count(init, s)]
    requires last == s ==> Count(init, s) < |queue| && f == queue[Count(init, s)]
    ensures TurnsOf(init + [last], fs + [f], s) == queue[..Count(init + [last], s)]
  {
    var n := Count(init, s);
    CountAppend(init, last, s);
    TurnsOfAppend(init, fs, last, f, s);
    if last == s { assert queue[..n + 1] == queue[..n] + [f]; }
  }

  /** Each stream's frames leave first in, first out. */
  lemma {:induction false} FramesFifo(q: Queues, ids: seq<StreamId>, s: StreamId)
    requires TurnsFit(q, ids) && s in q && Count(ids, s) <= |q[s]|
    ensures TurnsOf(ids, FramesOf(q, ids), s) == q[s][..Count(ids, s)]
  {
    if ids != [] {
      var init, last := ids[..|ids| - 1], ids[|ids| - 1];
      assert ids == init + [last];
      InitFits(q, init, last);
      CountAppend(init, last, s);
      FramesFifo(q, init, s);
      FifoStep(init, FramesOf(q, init), last, q[last][Count(init, last)], s, q[s]);
    }
  }
}
