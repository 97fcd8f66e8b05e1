/** The Gateway's local bindings: three indexes over the same bindings, and a round-robin cursor per Destination. */
module Registry {
  import opened Common
  import opened Arithmetic
  import opened Projection

  const USIZE_LIMIT: nat := U64_LIMIT

  type ById = map<Uuid, Binding>
  type ByDestination = map<Destination, seq<Uuid>>
  type BySession = map<Uuid, set<Uuid>>

  // ---------------------------------------------------------------- indexes

  predicate Listed(bd: ByDestination, d: Destination, i: Uuid) { d in bd && i in bd[d] }

  predicate Owned(bs: BySession, s: Uuid, i: Uuid) { s in bs && i in bs[s] }

  ghost predicate NoRepeats(ids: seq<Uuid>) { forall m, n :: 0 <= m < n < |ids| ==> ids[m] != ids[n] }

  ghost predicate Filed(ids: ById) { forall i :: i in ids ==> ids[i].id == i }

  /** One list per Destination that has bindings: exactly its bindings, each once. */
  ghost predicate DestinationsExact(ids: ById, bd: ByDestination) {
    && (forall d {:trigger d in bd} :: d in bd ==> bd[d] != [] && NoRepeats(bd[d]))
    && (forall d, i :: Listed(bd, d, i) <==> i in ids && ids[i].destination == d)
  }

  ghost predicate SessionsExact(ids: ById, bs: BySession) {
    && (forall s {:trigger s in bs} :: s in bs ==> bs[s] != {})
    && (forall s, i :: Owned(bs, s, i) <==> i in ids && ids[i].sessionId == s)
  }

  predicate SameScope(b: Binding, c: Binding) { b.sessionId == c.sessionId && b.destination == c.destination }

  /** At most one binding per session and Destination. */
  ghost predicate ScopesUnique(ids: ById) {
    forall i, j :: i in ids && j in ids && SameScope(ids[i], ids[j]) ==> i == j
  }

  ghost predicate CursorsUsed(bd: ByDestination, next: map<Destination, nat>) {
    forall d :: d in next ==> d in bd && next[d] < USIZE_LIMIT
  }

  // -------------------------------------------------- adding and removing one

  function AddId(bd: ByDestination, d: Destination, i: Uuid): ByDestination {
    bd[d := (if d in bd then bd[d] else []) + [i]]
  }

  function Retain(ids: seq<Uuid>, x: Uuid): seq<Uuid> {
    if ids == [] then []
    else Retain(ids[..|ids| - 1], x) + (if ids[|ids| - 1] != x then [ids[|ids| - 1]] else [])
  }

  function DropId(bd: ByDestination, d: Destination, i: Uuid): ByDestination {
    if d !in bd then bd
    else if Retain(bd[d], i) == [] then bd - {d}
    else bd[d := Retain(bd[d], i)]
  }

  function RemoveId(ids: ById, x: Uuid): ById { map i | i in ids && i != x :: ids[i] }

  lemma {:induction false} RetainExact(ids: seq<Uuid>, x: Uuid)
    ensures forall y :: y in Retain(ids, x) <==> y in ids && y != x
    ensures NoRepeats(ids) ==> NoRepeats(Retain(ids, x))
  {
    if ids != [] {
      var init, last := ids[..|ids| - 1], ids[|ids| - 1];
      RetainExact(init, x);
      assert ids == init + [last];
      if NoRepeats(ids) {
        assert NoRepeats(init) && last !in init;
        assert last !in Retain(init, x);
      }
    }
  }

  lemma AddDestination(ids: ById, bd: ByDestination, b: Binding)
    requires DestinationsExact(ids, bd) && b.id !in ids
    ensures DestinationsExact(ids[b.id := b], AddId(bd, b.destination, b.id))
  {
    var more, all := AddId(bd, b.destination, b.id), ids[b.id := b];
    assert !Listed(bd, b.destination, b.id);
    forall d | d in more ensures more[d] != [] && NoRepeats(more[d]) { if d in bd { assert NoRepeats(bd[d]); } }
    forall d, i ensures Listed(more, d, i) <==> i in all && all[i].destination == d {
      assert Listed(bd, d, i) <==> i in ids && ids[i].destination == d;
    }
  }

  lemma DropDestination(ids: ById, bd: ByDestination, b: Binding)
    requires DestinationsExact(ids, bd) && b.id in ids && ids[b.id] == b
    ensures DestinationsExact(RemoveId(ids, b.id), DropId(bd, b.destination, b.id))
  {
    var less, left := DropId(bd, b.destination, b.id), RemoveId(ids, b.id);
    assert Listed(bd, b.destination, b.id);
    RetainExact(bd[b.destination], b.id);
    forall d | d in less ensures less[d] != [] && NoRepeats(less[d]) { assert d in bd; }
    forall d, i ensures Listed(less, d, i) <==> i in left && left[i].destination == d {
      assert Listed(bd, d, i) <==> i in ids && ids[i].destination == d;
    }
  }

  function AddOwned(bs: BySession, s: Uuid, i: Uuid): BySession { bs[s := (if s in bs then bs[s] else {}) + {i}] }

  function DropOwned(bs: BySession, s: Uuid, i: Uuid): BySession {
    if s !in bs then bs
    else if bs[s] - {i} == {} then bs - {s}
    else bs[s := bs[s] - {i}]
  }

  lemma AddSession(ids: ById, bs: BySession, b: Binding)
    requires SessionsExact(ids, bs) && b.id !in ids
    ensures SessionsExact(ids[b.id := b], AddOwned(bs, b.sessionId, b.id))
  {
    var more, all := AddOwned(bs, b.sessionId, b.id), ids[b.id := b];
    forall s | s in more ensures more[s] != {} { if s == b.sessionId { assert b.id in more[s]; } }
    forall s, i ensures Owned(more, s, i) <==> i in all && all[i].sessionId == s {
      assert Owned(bs, s, i) <==> i in ids && ids[i].sessionId == s;
    }
  }

  lemma DropSession(ids: ById, bs: BySession, b: Binding)
    requires SessionsExact(ids, bs) && b.id in ids && ids[b.id] == b
    ensures SessionsExact(RemoveId(ids, b.id), DropOwned(bs, b.sessionId, b.id))
  {
    var less, left := DropOwned(bs, b.sessionId, b.id), RemoveId(ids, b.id);
    assert Owned(bs, b.sessionId, b.id);
    forall s | s in less ensures less[s] != {} { assert s in bs; }
    forall s, i ensures Owned(less, s, i) <==> i in left && left[i].sessionId == s {
      assert Owned(bs, s, i) <==> i in ids && ids[i].sessionId == s;
      if Owned(bs, s, i) && s == b.sessionId && i != b.id { assert i in bs[s] - {b.id}; }
    }
  }

  // -------------------------------------------------------------- selection

  /** The listed bindings that do not belong to `excluded`, in order. */
  function Eligible(ids: ById, list: seq<Uuid>, excluded: Uuid): seq<Binding> {
    if list == [] then []
    else
      var i := list[|list| - 1];
      Eligible(ids, list[..|list| - 1], excluded)
      + (if i in ids && ids[i].sessionId != excluded then [ids[i]] else [])
  }

  function ListOf(bd: ByDestination, d: Destination): seq<Uuid> { if d in bd then bd[d] else [] }

  function CursorOf(next: map<Destination, nat>, d: Destination): nat { if d in next then next[d] else 0 }

  /** `wrapping_add(1)` on the cursor. */
  function Advance(cursor: nat): nat { if cursor + 1 == USIZE_LIMIT then 0 else cursor + 1 }

  /** The next `n` choices for one Destination while its bindings stay the same. */
  function Choices(eligible: seq<Binding>, cursor: nat, n: nat): seq<Binding>
    requires eligible != []
    decreases n
  {
    if n == 0 then []
    else [eligible[cursor % |eligible|]] + Choices(eligible, Advance(cursor), n - 1)
  }

  /** The cursor after `k` more choices. */
  function Later(cursor: nat, k: nat): nat
    requires cursor < USIZE_LIMIT && k <= USIZE_LIMIT
  {
    if cursor + k < USIZE_LIMIT then cursor + k else cursor + k - USIZE_LIMIT
  }

  lemma {:induction false} ChoiceAt(eligible: seq<Binding>, cursor: nat, n: nat, k: nat)
    requires eligible != [] && k < n <= USIZE_LIMIT && cursor < USIZE_LIMIT
    ensures |Choices(eligible, cursor, n)| == n
    ensures Choices(eligible, cursor, n)[k] == eligible[Later(cursor, k) % |eligible|]
    decreases n
  {
    if n > 1 {
      var j := if k == 0 then 0 else k - 1;
      ChoiceAt(eligible, Advance(cursor), n - 1, j);
      assert k > 0 ==> Later(Advance(cursor), j) == Later(cursor, k);
      assert Later(cursor, 0) == cursor;
    }
  }

  function Rotated(eligible: seq<Binding>, from: nat): seq<Binding>
    requires from < |eligible|
  {
    eligible[from..] + eligible[..from]
  }

  lemma RotatedAt(eligible: seq<Binding>, cursor: nat, k: nat)
    requires k < |eligible|
    ensures Rotated(eligible, cursor % |eligible|)[k] == eligible[(cursor + k) % |eligible|]
  {
    Onward(cursor, |eligible|, k);
  }

  /** The cursor's wrap-around does not disturb the turn: it does not happen now, or it happens at the end of a
      round. */
  predicate Undisturbed(cursor: nat, n: nat)
    requires n > 0
  {
    cursor + n <= USIZE_LIMIT || USIZE_LIMIT % n == 0
  }

  lemma SteadyIndex(cursor: nat, n: nat, k: nat)
    requires 0 < n <= USIZE_LIMIT && cursor < USIZE_LIMIT && k < n && Undisturbed(cursor, n)
    ensures Later(cursor, k) % n == (cursor + k) % n
  {
    if cursor + k >= USIZE_LIMIT {
      var q, r := USIZE_LIMIT / n, cursor + k - USIZE_LIMIT;
      assert USIZE_LIMIT == n * q;
      assert cursor + k == n * q + r;
      Residue(q, n, r);
      Residue(0, n, r);
    }
  }

  /** As many consecutive choices as there are eligible bindings run through all of them, each exactly once. */
  lemma RoundRobin(eligible: seq<Binding>, cursor: nat)
    requires 0 < |eligible| <= USIZE_LIMIT && cursor < USIZE_LIMIT && Undisturbed(cursor, |eligible|)
    ensures Choices(eligible, cursor, |eligible|) == Rotated(eligible, cursor % |eligible|)
    ensures multiset(Choices(eligible, cursor, |eligible|)) == multiset(eligible)
  {
    var n, from := |eligible|, cursor % |eligible|;
    ChoiceAt(eligible, cursor, n, 0);
    forall k | 0 <= k < n ensures Choices(eligible, cursor, n)[k] == Rotated(eligible, from)[k] {
      ChoiceAt(eligible, cursor, n, k);
      SteadyIndex(cursor, n, k);
      RotatedAt(eligible, cursor, k);
    }
    assert eligible == eligible[..from] + eligible[from..];
  }

  /** When the wrap-around falls inside a round, one index comes up twice. */
  lemma DisturbedIndex(cursor: nat, n: nat) returns (j: nat, k: nat)
    requires 0 < n <= USIZE_LIMIT && cursor < USIZE_LIMIT && !Undisturbed(cursor, n)
    ensures j < k < n && Later(cursor, j) % n == Later(cursor, k) % n
  {
    var d, m, q := USIZE_LIMIT - cursor, USIZE_LIMIT % n, USIZE_LIMIT / n;
    assert USIZE_LIMIT == n * q + m;
    if d >= m {
      j, k := d - m, d;
      assert Later(cursor, j) == n * q && Later(cursor, k) == 0;
      Residue(q, n, 0);
      Residue(0, n, 0);
    } else {
      j, k := 0, m;
      assert Later(cursor, j) == n * q + (m - d) && Later(cursor, k) == m - d;
      Residue(q, n, m - d);
      Residue(0, n, m - d);
    }
  }

  lemma TwiceIn(picks: seq<Binding>, j: nat, k: nat)
    requires j < k < |picks| && picks[j] == picks[k]
    ensures multiset(picks)[picks[j]] >= 2
  {
    assert picks == picks[..j] + [picks[j]] + picks[j + 1..k] + [picks[k]] + picks[k + 1..];
  }

  /** Round robin is exact if and only if the wrap-around of the cursor does not fall inside the round. */
  lemma RoundRobinExactly(eligible: seq<Binding>, cursor: nat)
    requires 0 < |eligible| <= USIZE_LIMIT && cursor < USIZE_LIMIT
    requires forall b :: multiset(eligible)[b] <= 1
    ensures multiset(Choices(eligible, cursor, |eligible|)) == multiset(eligible) <==> Undisturbed(cursor, |eligible|)
  {
    var n := |eligible|;
    if Undisturbed(cursor, n) {
      RoundRobin(eligible, cursor);
    } else {
      var j, k := DisturbedIndex(cursor, n);
      ChoiceAt(eligible, cursor, n, j);
      ChoiceAt(eligible, cursor, n, k);
      TwiceIn(Choices(eligible, cursor, n), j, k);
    }
  }

  /** The cursors of the Destinations that still have bindings. */
  function CursorsLeft(next: map<Destination, nat>, bd: ByDestination): map<Destination, nat> {
    map d | d in next && d in bd :: next[d]
  }

  lemma AllCursorsLeft(next: map<Destination, nat>, bd: ByDestination)
    requires CursorsUsed(bd, next)
    ensures CursorsLeft(next, bd) == next
  {
  }

  lemma CursorsDrop(next: map<Destination, nat>, bd: ByDestination, d: Destination, i: Uuid)
    requires CursorsUsed(bd, next)
    ensures CursorsLeft(next, DropId(bd, d, i)) ==
            if d in bd && d !in DropId(bd, d, i) then next - {d} else next
    ensures forall x :: x in DropId(bd, d, i) ==> x in bd
  {
  }

  lemma CursorsLeftTwice(next: map<Destination, nat>, bd: ByDestination, less: ByDestination)
    requires forall d :: d in less ==> d in bd
    ensures CursorsLeft(CursorsLeft(next, bd), less) == CursorsLeft(next, less)
  {
  }

  // ----------------------------------------------------- ending a session

  /** Of the bindings `all`, those not in `left` have gone. */
  function Kept(before: ById, all: set<Uuid>, left: set<Uuid>): ById {
    map i | i in before && (i !in all || i in left) :: before[i]
  }

  function Taken(before: ById, all: set<Uuid>, left: set<Uuid>): ById {
    map i | i in before && i in all && i !in left :: before[i]
  }

  lemma NothingTaken(before: ById, all: set<Uuid>)
    ensures Kept(before, all, all) == before && Taken(before, all, all) == map[]
  {
  }

  lemma TakeOne(before: ById, all: set<Uuid>, left: set<Uuid>, i: Uuid)
    requires i in left && left <= all && i in before
    ensures i in Kept(before, all, left) && Kept(before, all, left)[i] == before[i]
    ensures RemoveId(Kept(before, all, left), i) == Kept(before, all, left - {i})
    ensures Taken(before, all, left)[i := before[i]] == Taken(before, all, left - {i})
  {
  }

  // ------------------------------------------------------------------ object

  datatype Registration = Created(binding: Binding) | Existing(binding: Binding)

  class LocalRegistry {
    var byId: ById
    var byDestination: ByDestination
    var bySession: BySession
    var nextSelection: map<Destination, nat>

    ghost predicate Valid()
      reads this
    {
      && Filed(byId) && ScopesUnique(byId)
      && DestinationsExact(byId, byDestination)
      && SessionsExact(byId, bySession)
      && CursorsUsed(byDestination, nextSelection)
    }

    constructor ()
      ensures Valid() && byId == map[]
    {
      byId, byDestination, bySession, nextSelection := map[], map[], map[], map[];
    }

    /** The session's binding for the Destination, if it has one. */
    method Find(session: Uuid, destination: Destination) returns (r: Option<Binding>)
      requires Valid()
      ensures r.Some? ==> r.value.id in byId && byId[r.value.id] == r.value
      ensures r.Some? ==> r.value.sessionId == session && r.value.destination == destination
      ensures r.None? ==> forall i :: i in byId ==> byId[i].sessionId != session || byId[i].destination != destination
    {
      var left := if session in bySession then bySession[session] else {};
      ghost var all := left;
      forall i ensures i in all <==> i in byId && byId[i].sessionId == session {
        assert Owned(bySession, session, i) <==> i in byId && byId[i].sessionId == session;
      }
      while left != {}
        invariant left <= all
        invariant forall i :: i in all && i !in left ==> byId[i].destination != destination
        decreases left
      {
        var i :| i in left;
        if byId[i].destination == destination { return Some(byId[i]); }
        left := left - {i};
      }
      return None;
    }

    /** A session has one binding per Destination: registering again returns the one it has. */
    method Register(session: Uuid, destination: Destination, draw: Uuid) returns (r: Registration)
      requires Valid() && draw !in byId
      modifies this
      ensures Valid()
      ensures r.binding.id in byId && byId[r.binding.id] == r.binding
      ensures r.binding.sessionId == session && r.binding.destination == destination
      ensures r.Existing? ==> byId == old(byId) && byDestination == old(byDestination)
      ensures r.Created? ==>
                && r.binding.id == draw && byId == old(byId)[draw := r.binding]
                && byDestination == AddId(old(byDestination), destination, draw)
                && forall i :: i in old(byId) ==>
                     old(byId)[i].sessionId != session || old(byId)[i].destination != destination
      ensures nextSelection == old(nextSelection)
    {
      var found := Find(session, destination);
      if found.Some? { return Existing(found.value); }
      var binding := Binding(draw, session, destination);
      AddDestination(byId, byDestination, binding);
      AddSession(byId, bySession, binding);
      byId := byId[draw := binding];
      byDestination := AddId(byDestination, destination, draw);
      bySession := AddOwned(bySession, session, draw);
      return Created(binding);
    }

    /** Takes one binding out of every index, and the cursor with the last binding of its Destination. */
    method Remove(id: Uuid) returns (r: Option<Binding>)
      requires Valid()
      modifies this
      ensures Valid() && byId == RemoveId(old(byId), id)
      ensures r == if id in old(byId) then Some(old(byId)[id]) else None
      ensures id in old(byId) ==>
                && byDestination == DropId(old(byDestination), old(byId)[id].destination, id)
                && bySession == DropOwned(old(bySession), old(byId)[id].sessionId, id)
      ensures id !in old(byId) ==> byDestination == old(byDestination) && bySession == old(bySession)
      ensures nextSelection == CursorsLeft(old(nextSelection), byDestination)
    {
      if id !in byId {
        assert RemoveId(byId, id) == byId;
        AllCursorsLeft(nextSelection, byDestination);
        return None;
      }
      var binding := byId[id];
      DropDestination(byId, byDestination, binding);
      DropSession(byId, bySession, binding);
      var d := binding.destination;
      CursorsDrop(nextSelection, byDestination, d, id);
      byId := RemoveId(byId, id);
      if d in byDestination {
        var ids := Retain(byDestination[d], id);
        if ids == [] {
          byDestination := byDestination - {d};
          nextSelection := nextSelection - {d};
        } else {
          byDestination := byDestination[d := ids];
        }
      }
      bySession := DropOwned(bySession, binding.sessionId, id);
      return Some(binding);
    }

    method RemoveOwned(session: Uuid, id: Uuid) returns (r: Option<Binding>)
      requires Valid()
      modifies this
      ensures Valid()
      ensures r == if id in old(byId) && old(byId)[id].sessionId == session then Some(old(byId)[id]) else None
      ensures byId == if r.Some? then RemoveId(old(byId), id) else old(byId)
      ensures nextSelection == CursorsLeft(old(nextSelection), byDestination)
    {
      AllCursorsLeft(nextSelection, byDestination);
      if id !in byId || byId[id].sessionId != session { return None; }
      r := Remove(id);
    }

    /** One of several removals; `next` are the cursors before the first. */
    method RemoveNext(id: Uuid, ghost next: map<Destination, nat>) returns (r: Option<Binding>)
      requires Valid() && nextSelection == CursorsLeft(next, byDestination)
      modifies this
      ensures Valid() && byId == RemoveId(old(byId), id)
      ensures r == if id in old(byId) then Some(old(byId)[id]) else None
      ensures nextSelection == CursorsLeft(next, byDestination)
    {
      ghost var bd := byDestination;
      if id in byId { CursorsDrop(nextSelection, bd, byId[id].destination, id); }
      r := Remove(id);
      CursorsLeftTwice(next, bd, byDestination);
    }

    /** Ends a session: exactly its bindings go, and they are returned, each once. */
    method RemoveSession(session: Uuid) returns (gone: ById)
      requires Valid()
      modifies this
      ensures Valid()
      ensures gone == map i | i in old(byId) && old(byId)[i].sessionId == session :: old(byId)[i]
      ensures byId == map i | i in old(byId) && old(byId)[i].sessionId != session :: old(byId)[i]
      ensures nextSelection == CursorsLeft(old(nextSelection), byDestination)
    {
      AllCursorsLeft(nextSelection, byDestination);
      var left := if session in bySession then bySession[session] else {};
      ghost var all := left;
      forall i ensures i in all <==> i in byId && byId[i].sessionId == session {
        assert Owned(bySession, session, i) <==> i in byId && byId[i].sessionId == session;
      }
      ghost var before := byId;
      NothingTaken(before, all);
      gone := map[];
      while left != {}
        invariant Valid() && left <= all <= before.Keys
        invariant gone == Taken(before, all, left) && byId == Kept(before, all, left)
        invariant nextSelection == CursorsLeft(old(nextSelection), byDestination)
        decreases left
      {
        var i :| i in left;
        TakeOne(before, all, left, i);
        var removed := RemoveNext(i, old(nextSelection));
        if removed.Some? { gone := gone[i := removed.value]; }
        left := left - {i};
      }
    }

    /** Chooses the next binding in turn among those that belong to other sessions. */
    method SelectExcluding(destination: Destination, excluded: Uuid) returns (r: Option<Binding>)
      requires Valid()
      modifies this`nextSelection
      ensures Valid()
      ensures
        var eligible := Eligible(byId, ListOf(byDestination, destination), excluded);
        var cursor := CursorOf(old(nextSelection), destination);
        if eligible == [] then r.None? && nextSelection == old(nextSelection)
        else r == Some(eligible[cursor % |eligible|])
             && nextSelection == old(nextSelection)[destination := Advance(cursor)]
    {
      if destination !in byDestination { return None; }
      var eligible := Eligible(byId, byDestination[destination], excluded);
      if eligible == [] { return None; }
      var cursor := CursorOf(nextSelection, destination);
      nextSelection := nextSelection[destination := Advance(cursor)];
      return Some(eligible[cursor % |eligible|]);
    }

    /** `n` selections in a row make the next `n` choices. */
    method SelectMany(destination: Destination, excluded: Uuid, n: nat) returns (picks: seq<Binding>)
      requires Valid() && Eligible(byId, ListOf(byDestination, destination), excluded) != []
      modifies this`nextSelection
      ensures Valid()
      ensures picks == Choices(Eligible(byId, ListOf(byDestination, destination), excluded),
                               CursorOf(old(nextSelection), destination), n)
    {
      ghost var eligible := Eligible(byId, ListOf(byDestination, destination), excluded);
      picks := [];
      for i := 0 to n
        invariant Valid()
        invariant picks + Choices(eligible, CursorOf(nextSelection, destination), n - i)
               == Choices(eligible, CursorOf(old(nextSelection), destination), n)
      {
        var pick := SelectExcluding(destination, excluded);
        picks := picks + [pick.value];
      }
      assert picks + [] == picks;
    }

    /**
     A round of selections, as many as there are eligible bindings, reaches each exactly once if and only if the
     cursor's wrap-around does not fall inside it.
     */
    method SelectRound(destination: Destination, excluded: Uuid) returns (picks: seq<Binding>)
      requires Valid() && 0 < |Eligible(byId, ListOf(byDestination, destination), excluded)| <= USIZE_LIMIT
      modifies this`nextSelection
      ensures Valid()
      ensures var eligible := Eligible(byId, ListOf(byDestination, destination), excluded);
              multiset(picks) == multiset(eligible) <==>
              Undisturbed(CursorOf(old(nextSelection), destination), |eligible|)
    {
      var list := ListOf(byDestination, destination);
      var eligible := Eligible(byId, list, excluded);
      forall b ensures multiset(eligible)[b] <= 1 { EligibleExact(byId, list, excluded, b); }
      RoundRobinExactly(eligible, CursorOf(nextSelection, destination));
      picks := SelectMany(destination, excluded, |eligible|);
    }
  }

  /** Exactly the bindings of the Destination that belong to other sessions take part, each once. */
  lemma {:induction false} EligibleExact(ids: ById, list: seq<Uuid>, excluded: Uuid, b: Binding)
    requires Filed(ids) && NoRepeats(list)
    ensures b in Eligible(ids, list, excluded) <==>
             b.id in list && b.id in ids && ids[b.id] == b && b.sessionId != excluded
    ensures multiset(Eligible(ids, list, excluded))[b] <= 1
  {
    if list != [] {
      var init, i := list[..|list| - 1], list[|list| - 1];
      EligibleExact(ids, init, excluded, b);
      assert list == init + [i];
      assert i !in init;
    }
  }
}
