/**
 The shard as the program keeps it: the registrations plus three redundant
 indexes and two counters, updated in place. Every method answers as the plain
 map does and keeps the indexes exact.
 */
module RouteShard {
  import opened Common
  import opened RouteModel
  import opened RouteTable

  datatype ExpiryKey = ExpiryKey(key: RegistrationKey, lease: Uuid)

  type DestinationIndex = map<Destination, Bindings>
  type ExpiryIndex = map<Instant, set<ExpiryKey>>

  // ------------------------------------------------------- destination index

  predicate Grouped(di: DestinationIndex, d: Destination, i: BindingIdentity) { d in di && i in di[d] }

  predicate EmptyGroup(di: DestinationIndex, d: Destination) { d in di && di[d] == map[] }

  /** Grouping by Destination of exactly the bindings `all`, with no empty group. */
  ghost predicate DestinationsExact(di: DestinationIndex, all: Bindings) {
    && (forall d :: !EmptyGroup(di, d))
    && (forall d, i :: Grouped(di, d, i) ==> i in all && all[i] == di[d][i])
    && (forall d, i :: Grouped(di, d, i) <==> i in all && all[i].destination == d)
  }

  function Except(all: Bindings, x: BindingIdentity): Bindings { map i | i in all && i != x :: all[i] }

  function AddBinding(di: DestinationIndex, b: BindingProjection): DestinationIndex {
    var bucket := if b.destination in di then di[b.destination] else map[];
    di[b.destination := bucket[b.identity := b]]
  }

  function DropBinding(di: DestinationIndex, b: BindingProjection): DestinationIndex {
    if b.destination !in di then di
    else
      var bucket := Except(di[b.destination], b.identity);
      if bucket == map[] then di - {b.destination} else di[b.destination := bucket]
  }

  lemma AddBindingExact(di: DestinationIndex, all: Bindings, b: BindingProjection)
    requires DestinationsExact(di, all) && b.identity !in all
    ensures DestinationsExact(AddBinding(di, b), all[b.identity := b])
  {
    var next, more := AddBinding(di, b), all[b.identity := b];
    forall d ensures !EmptyGroup(next, d) {
      assert !EmptyGroup(di, d);
      if d == b.destination { assert b.identity in next[d]; }
    }
    forall d, i
      ensures Grouped(next, d, i) ==> i in more && more[i] == next[d][i]
      ensures Grouped(next, d, i) <==> i in more && more[i].destination == d
    {
      assert Grouped(di, d, i) <==> i in all && all[i].destination == d;
    }
  }

  lemma DropBindingExact(di: DestinationIndex, all: Bindings, b: BindingProjection)
    requires DestinationsExact(di, all) && b.identity in all && all[b.identity] == b
    ensures DestinationsExact(DropBinding(di, b), Except(all, b.identity))
  {
    var next, left := DropBinding(di, b), Except(all, b.identity);
    assert Grouped(di, b.destination, b.identity);
    forall d ensures !EmptyGroup(next, d) { assert !EmptyGroup(di, d); }
    forall d, i
      ensures Grouped(next, d, i) ==> i in left && left[i] == next[d][i]
      ensures Grouped(next, d, i) <==> i in left && left[i].destination == d
    {
      assert Grouped(di, d, i) <==> i in all && all[i].destination == d;
      if Grouped(di, d, i) && i != b.identity && d == b.destination { assert i in Except(di[d], b.identity); }
    }
  }

  function Less(all: Bindings, b: Bindings): Bindings { map i | i in all && i !in b :: all[i] }

  ghost predicate Within(b: Bindings, all: Bindings) { forall i :: i in b ==> i in all && all[i] == b[i] }

  ghost predicate Apart(a: Bindings, b: Bindings) { forall i :: i in b ==> i !in a }

  lemma Shrinks(left: Bindings, i: BindingIdentity)
    requires i in left
    ensures |Except(left, i)| < |left|
  {
    assert left.Keys == Except(left, i).Keys + {i};
  }

  lemma GiveEntry(after: Bindings, left: Bindings, i: BindingIdentity)
    requires i in left && Within(left, after) && Filed(left)
    ensures Less(after, Except(left, i)) == Less(after, left)[i := left[i]]
    ensures Within(Except(left, i), after) && Filed(Except(left, i))
    ensures |Except(left, i)| < |left|
  {
    Shrinks(left, i);
  }

  lemma TakeEntry(now: Bindings, left: Bindings, i: BindingIdentity)
    requires i in left && Within(left, now) && Filed(left)
    ensures Less(Except(now, i), Except(left, i)) == Less(now, left)
    ensures Within(Except(left, i), Except(now, i)) && Filed(Except(left, i))
    ensures |Except(left, i)| < |left|
  {
    Shrinks(left, i);
  }

  // ------------------------------------------------------------ expiry index

  predicate Records(ei: ExpiryIndex, at: Instant, e: ExpiryKey) { at in ei && e in ei[at] }

  /** One record per registration, at its deadline, and no empty bucket. */
  ghost predicate ExpiriesExact(ei: ExpiryIndex, t: Table) {
    && (forall at :: at in ei ==> ei[at] != {})
    && (forall at, e :: Records(ei, at, e) <==> e.key in t && t[e.key].lease == e.lease && t[e.key].deadline == at)
  }

  function AddExpiry(ei: ExpiryIndex, at: Instant, e: ExpiryKey): ExpiryIndex {
    ei[at := (if at in ei then ei[at] else {}) + {e}]
  }

  function DropExpiry(ei: ExpiryIndex, at: Instant, e: ExpiryKey): ExpiryIndex {
    if at !in ei then ei
    else if ei[at] - {e} == {} then ei - {at}
    else ei[at := ei[at] - {e}]
  }

  lemma AddExpiryRecords(ei: ExpiryIndex, at: Instant, e: ExpiryKey)
    ensures forall b, f :: Records(AddExpiry(ei, at, e), b, f) <==> Records(ei, b, f) || (b == at && f == e)
    ensures (forall b :: b in ei ==> ei[b] != {}) ==>
              forall b :: b in AddExpiry(ei, at, e) ==> AddExpiry(ei, at, e)[b] != {}
  {
  }

  lemma DropExpiryRecords(ei: ExpiryIndex, at: Instant, e: ExpiryKey)
    ensures forall b, f :: Records(DropExpiry(ei, at, e), b, f) <==> Records(ei, b, f) && !(b == at && f == e)
    ensures (forall b :: b in ei ==> ei[b] != {}) ==>
              forall b :: b in DropExpiry(ei, at, e) ==> DropExpiry(ei, at, e)[b] != {}
  {
    if at in ei && ei[at] - {e} == {} {
      assert forall f :: f in ei[at] ==> f in ei[at] - {e} || f == e;
    }
  }

  lemma AddExpiryExact(ei: ExpiryIndex, t: Table, k: RegistrationKey, r: Registration)
    requires ExpiriesExact(ei, t) && k !in t
    ensures ExpiriesExact(AddExpiry(ei, r.deadline, ExpiryKey(k, r.lease)), t[k := r])
    ensures !Records(ei, r.deadline, ExpiryKey(k, r.lease))
  {
    AddExpiryRecords(ei, r.deadline, ExpiryKey(k, r.lease));
  }

  lemma DropExpiryExact(ei: ExpiryIndex, t: Table, k: RegistrationKey)
    requires ExpiriesExact(ei, t) && k in t
    ensures ExpiriesExact(DropExpiry(ei, t[k].deadline, ExpiryKey(k, t[k].lease)), Remove(t, k))
    ensures Records(ei, t[k].deadline, ExpiryKey(k, t[k].lease))
  {
    DropExpiryRecords(ei, t[k].deadline, ExpiryKey(k, t[k].lease));
  }

  // ------------------------------------------------------- removing one key

  /** `all` holds every binding of the table. */
  ghost predicate IsFlat(c: ShardConfig, t: Table, all: Bindings) {
    forall i {:trigger BindingAt(c, t, i)} :: BindingAt(c, t, i) == if i in all then Some(all[i]) else None
  }

  lemma BindingWithout(c: ShardConfig, t: Table, k: RegistrationKey, i: BindingIdentity)
    requires c.directory.shards != [] && TableOk(c, t) && k in t
    ensures BindingAt(c, Remove(t, k), i) == if i in t[k].bindings then None else BindingAt(c, t, i)
    ensures i in t[k].bindings ==> BindingAt(c, t, i) == Some(t[k].bindings[i])
  {
    if i in t[k].bindings { OneHolder(c, t, k, i); }
  }

  lemma FlatWithout(c: ShardConfig, t: Table, k: RegistrationKey, all: Bindings)
    requires c.directory.shards != [] && TableOk(c, t) && k in t && IsFlat(c, t, all)
    ensures IsFlat(c, Remove(t, k), Less(all, t[k].bindings))
    ensures Within(t[k].bindings, all)
  {
    var less := Less(all, t[k].bindings);
    forall i
      ensures BindingAt(c, Remove(t, k), i) == if i in less then Some(less[i]) else None
      ensures i in t[k].bindings ==> i in all && all[i] == t[k].bindings[i]
    {
      assert BindingAt(c, t, i) == if i in all then Some(all[i]) else None;
      BindingWithout(c, t, k, i);
    }
  }

  lemma BindingWith(c: ShardConfig, t: Table, k: RegistrationKey, r: Registration, i: BindingIdentity)
    requires c.directory.shards != [] && k !in t && RegistrationOk(c, k, r)
    ensures BindingAt(c, t[k := r], i) == if i in r.bindings then Some(r.bindings[i]) else BindingAt(c, t, i)
    ensures i in r.bindings ==> BindingAt(c, t, i).None?
  {
  }

  lemma FlatWith(c: ShardConfig, t: Table, k: RegistrationKey, r: Registration, all: Bindings)
    requires c.directory.shards != [] && k !in t && RegistrationOk(c, k, r) && IsFlat(c, t, all)
    ensures IsFlat(c, t[k := r], all + r.bindings)
    ensures Apart(all, r.bindings)
  {
    var more := all + r.bindings;
    forall i
      ensures BindingAt(c, t[k := r], i) == if i in more then Some(more[i]) else None
      ensures i in r.bindings ==> i !in all
    {
      assert BindingAt(c, t, i) == if i in all then Some(all[i]) else None;
      BindingWith(c, t, k, r, i);
    }
  }

  lemma MergeApart(all: Bindings, b: Bindings)
    requires Apart(all, b)
    ensures Within(b, all + b) && Less(all + b, b) == all && |all + b| == |all| + |b|
  {
    assert (all + b).Keys == all.Keys + b.Keys;
  }

  lemma TakeAway(all: Bindings, b: Bindings)
    requires Within(b, all)
    ensures |b| <= |all| && |Less(all, b)| == |all| - |b|
  {
    assert b.Keys <= all.Keys && Less(all, b).Keys == all.Keys - b.Keys;
    SubsetSize(b.Keys, all.Keys);
  }

  lemma LeasesWithout(t: Table, k: RegistrationKey)
    requires LeasesDistinct(t) && k in t
    ensures Leases(Remove(t, k)) == Leases(t) - {t[k].lease}
  {
    forall l | l in t && l != k ensures t[l].lease in Leases(Remove(t, k)) && t[l].lease != t[k].lease {
      assert l in Remove(t, k);
      assert !SharesLease(t, l, k);
    }
  }

  lemma LeasesWith(t: Table, k: RegistrationKey, r: Registration)
    requires k !in t
    ensures Leases(t[k := r]) == Leases(t) + {r.lease}
  {
    var u := t[k := r];
    assert k in u && u[k].lease == r.lease;
    forall l | l in t ensures t[l].lease in Leases(u) { assert l in u; }
  }

  lemma WithoutSize(t: Table, k: RegistrationKey)
    requires k in t
    ensures |Remove(t, k)| == |t| - 1
  {
    assert Remove(t, k).Keys == t.Keys - {k};
  }

  lemma WithSize(t: Table, k: RegistrationKey, r: Registration)
    requires k !in t
    ensures |t[k := r]| == |t| + 1
  {
    assert t[k := r].Keys == t.Keys + {k};
  }

  lemma SubsetSize<T>(a: set<T>, b: set<T>)
    requires a <= b
    ensures |a| <= |b| && |b - a| == |b| - |a|
  {
    assert b == (b - a) + a;
  }

  lemma ReplaceKey(t: Table, k: RegistrationKey, r: Registration)
    ensures t[k := r] == Remove(t, k)[k := r]
  {
  }

  lemma EarliestIsLeast(ei: ExpiryIndex, t: Table, k: RegistrationKey)
    requires ExpiriesExact(ei, t) && k in t
    ensures t[k].deadline in ei
  {
    assert Records(ei, t[k].deadline, ExpiryKey(k, t[k].lease));
  }

  // -------------------------------------------------------------- one bucket

  /** `pending` are the records of a popped bucket that are still to be handled. */
  ghost predicate Pending(t: Table, at: Instant, pending: set<ExpiryKey>) {
    forall e :: e in pending ==> e.key in t && t[e.key].lease == e.lease && t[e.key].deadline == at
  }

  /** The table without the registrations recorded in `pending`. */
  ghost function Unlisted(t: Table, pending: set<ExpiryKey>): Table {
    map k | k in t && ExpiryKey(k, t[k].lease) !in pending :: t[k]
  }

  lemma BucketPopped(ei: ExpiryIndex, t: Table, at: Instant)
    requires ExpiriesExact(ei, t) && at in ei
    ensures Pending(t, at, ei[at]) && ExpiriesExact(ei - {at}, Unlisted(t, ei[at]))
    ensures forall k :: k in t ==> (k in Unlisted(t, ei[at]) <==> t[k].deadline != at)
  {
    var pending, left := ei[at], Unlisted(t, ei[at]);
    forall e | e in pending ensures e.key in t && t[e.key].lease == e.lease && t[e.key].deadline == at {
      assert Records(ei, at, e);
    }
    forall k | k in t ensures k in left <==> t[k].deadline != at {
      assert Records(ei, t[k].deadline, ExpiryKey(k, t[k].lease));
      assert Records(ei, at, ExpiryKey(k, t[k].lease)) <==> t[k].deadline == at;
    }
    forall b, e ensures Records(ei - {at}, b, e) <==>
                          e.key in left && left[e.key].lease == e.lease && left[e.key].deadline == b
    {
      assert Records(ei - {at}, b, e) <==> b != at && Records(ei, b, e);
    }
  }

  lemma PendingHandled(t: Table, at: Instant, pending: set<ExpiryKey>, e: ExpiryKey)
    requires Pending(t, at, pending) && e in pending
    ensures Pending(Remove(t, e.key), at, pending - {e})
    ensures Unlisted(Remove(t, e.key), pending - {e}) == Unlisted(t, pending)
  {
  }

  lemma NothingPending(t: Table)
    ensures Unlisted(t, {}) == t
  {
  }

  /** A bucket has one record per registration due then. */
  lemma {:induction false} BucketSize(t: Table, at: Instant, pending: set<ExpiryKey>)
    requires Pending(t, at, pending)
    ensures |pending| <= |t| && |Unlisted(t, pending)| == |t| - |pending|
    decreases |pending|
  {
    if pending == {} {
      NothingPending(t);
    } else {
      var e :| e in pending;
      PendingHandled(t, at, pending, e);
      WithoutSize(t, e.key);
      BucketSize(Remove(t, e.key), at, pending - {e});
    }
  }

  /** The earliest deadline on record. */
  function FirstDeadline(ei: ExpiryIndex): (first: Option<Instant>)
    ensures first.None? <==> ei == map[]
    ensures first.Some? ==> first.value in ei && forall at :: at in ei ==> first.value <= at
  {
    if ei == map[] then None
    else
      var moments: set<nat> := set at | at in ei;
      assert forall at :: at in ei ==> at in moments;
      Some(Least(moments))
  }

  /** The facts that survive the removal of `k`, with its bindings taken out of `all`. */
  lemma CoreWithout(c: ShardConfig, t: Table, k: RegistrationKey, all: Bindings)
    requires c.directory.shards != [] && TableOk(c, t) && k in t && IsFlat(c, t, all)
    ensures TableOk(c, Remove(t, k)) && IsFlat(c, Remove(t, k), Less(all, t[k].bindings))
    ensures Filed(t[k].bindings) && Within(t[k].bindings, all)
    ensures |t[k].bindings| <= |all| && |Less(all, t[k].bindings)| == |all| - |t[k].bindings|
    ensures Leases(Remove(t, k)) == Leases(t) - {t[k].lease}
  {
    assert RegistrationOk(c, k, t[k]);
    PutSlotOk(c, t, k, None);
    FlatWithout(c, t, k, all);
    LeasesWithout(t, k);
    TakeAway(all, t[k].bindings);
  }

  lemma CoreWith(c: ShardConfig, t: Table, k: RegistrationKey, r: Registration, all: Bindings)
    requires c.directory.shards != [] && TableOk(c, t) && k !in t && IsFlat(c, t, all)
    requires RegistrationOk(c, k, r) && r.lease !in Leases(t)
    ensures TableOk(c, t[k := r]) && IsFlat(c, t[k := r], all + r.bindings)
    ensures Filed(r.bindings) && Within(r.bindings, all + r.bindings) && Less(all + r.bindings, r.bindings) == all
    ensures |all + r.bindings| == |all| + |r.bindings|
    ensures Leases(t[k := r]) == Leases(t) + {r.lease} && |t[k := r]| == |t| + 1
  {
    PutSlotOk(c, t, k, Some(r));
    FlatWith(c, t, k, r, all);
    MergeApart(all, r.bindings);
    LeasesWith(t, k, r);
    WithSize(t, k, r);
  }

  lemma CoreReplace(c: ShardConfig, t: Table, k: RegistrationKey, r: Registration, all: Bindings)
    returns (after: Bindings)
    requires c.directory.shards != [] && TableOk(c, t) && k in t && IsFlat(c, t, all)
    requires RegistrationOk(c, k, r) && r.lease == t[k].lease
    ensures TableOk(c, t[k := r]) && IsFlat(c, t[k := r], after)
    ensures Leases(t[k := r]) == Leases(t) && |t[k := r]| == |t|
    ensures Filed(t[k].bindings) && Within(t[k].bindings, all)
    ensures Filed(r.bindings) && Within(r.bindings, after) && Less(after, r.bindings) == Less(all, t[k].bindings)
    ensures |t[k].bindings| <= |all| && |after| == |all| - |t[k].bindings| + |r.bindings|
  {
    CoreWithout(c, t, k, all);
    assert t[k].lease in Leases(t);
    CoreWith(c, Remove(t, k), k, r, Less(all, t[k].bindings));
    ReplaceKey(t, k, r);
    WithoutSize(t, k);
    after := Less(all, t[k].bindings) + r.bindings;
  }

  lemma CoreWithEmpty(c: ShardConfig, t: Table, k: RegistrationKey, r: Registration, all: Bindings)
    requires c.directory.shards != [] && TableOk(c, t) && k !in t && IsFlat(c, t, all)
    requires k.shardId == c.shardId && r.lease !in Leases(t) && r.bindings == map[] && r.revision.None?
    ensures TableOk(c, t[k := r]) && IsFlat(c, t[k := r], all)
    ensures Leases(t[k := r]) == Leases(t) + {r.lease} && |t[k := r]| == |t| + 1
  {
    CoreWith(c, t, k, r, all);
    assert all + map[] == all;
  }

  lemma ReplaceExpiries(ei: ExpiryIndex, t: Table, k: RegistrationKey, r: Registration)
    requires ExpiriesExact(ei, t) && k in t && r.lease == t[k].lease && r.deadline == t[k].deadline
    ensures ExpiriesExact(ei, t[k := r])
  {
    var u := t[k := r];
    forall at, e ensures Records(ei, at, e) <==> e.key in u && u[e.key].lease == e.lease && u[e.key].deadline == at {
      assert Records(ei, at, e) <==> e.key in t && t[e.key].lease == e.lease && t[e.key].deadline == at;
    }
  }

  /** A change of deadline moves no binding. */
  lemma SameBindings(c: ShardConfig, t: Table, k: RegistrationKey, r: Registration, all: Bindings)
    requires IsFlat(c, t, all) && k in t && r.bindings == t[k].bindings
    ensures IsFlat(c, t[k := r], all)
  {
    forall i ensures BindingAt(c, t[k := r], i) == if i in all then Some(all[i]) else None {
      assert BindingAt(c, t, i) == if i in all then Some(all[i]) else None;
    }
  }

  lemma CoreMoves(c: ShardConfig, t: Table, k: RegistrationKey, r: Registration, all: Bindings)
    requires c.directory.shards != [] && TableOk(c, t) && k in t && IsFlat(c, t, all)
    requires r == t[k].(deadline := r.deadline)
    ensures TableOk(c, t[k := r]) && IsFlat(c, t[k := r], all)
    ensures Leases(t[k := r]) == Leases(t) && |t[k := r]| == |t| && |t| > 0
  {
    assert RegistrationOk(c, k, t[k]);
    var after := CoreReplace(c, t, k, r, all);
    SameBindings(c, t, k, r, all);
  }

  lemma MoveExpiryExact(ei: ExpiryIndex, t: Table, k: RegistrationKey, r: Registration)
    requires ExpiriesExact(ei, t) && k in t && r.lease == t[k].lease
    ensures var e := ExpiryKey(k, r.lease);
            && Records(ei, t[k].deadline, e) && !Records(DropExpiry(ei, t[k].deadline, e), r.deadline, e)
            && ExpiriesExact(AddExpiry(DropExpiry(ei, t[k].deadline, e), r.deadline, e), t[k := r])
  {
    DropExpiryExact(ei, t, k);
    AddExpiryExact(DropExpiry(ei, t[k].deadline, ExpiryKey(k, r.lease)), Remove(t, k), k, r);
    ReplaceKey(t, k, r);
  }

  /** A group of the exact index is what RESOLVE owes its caller. */
  lemma GroupResolves(c: ShardConfig, t: Table, all: Bindings, di: DestinationIndex, d: Destination)
    requires IsFlat(c, t, all) && DestinationsExact(di, all)
    ensures forall i ::
              var held := BindingAt(c, t, i);
              if Grouped(di, d, i) then held == Some(di[d][i]) && di[d][i].destination == d
              else held.Some? ==> held.value.destination != d
    ensures !EmptyGroup(di, d)
  {
    forall i
      ensures var held := BindingAt(c, t, i);
              if Grouped(di, d, i) then held == Some(di[d][i]) && di[d][i].destination == d
              else held.Some? ==> held.value.destination != d
    {
      assert BindingAt(c, t, i) == if i in all then Some(all[i]) else None;
      assert Grouped(di, d, i) <==> i in all && all[i].destination == d;
    }
  }

  lemma DeadlinesOnRecord(ei: ExpiryIndex, t: Table)
    requires ExpiriesExact(ei, t)
    ensures forall k :: k in t ==> t[k].deadline in ei
    ensures forall at :: at in ei ==> exists k :: k in t && t[k].deadline == at
  {
    forall k | k in t ensures t[k].deadline in ei { EarliestIsLeast(ei, t, k); }
    forall at | at in ei ensures exists k :: k in t && t[k].deadline == at {
      var e :| e in ei[at];
      assert Records(ei, at, e);
    }
  }

  /** Only due registrations have gone so far. */
  ghost predicate Sweeping(before: Table, now: Table, moment: Instant) {
    && (forall k :: k in now ==> k in before && before[k] == now[k])
    && (forall k :: k in before && k !in now ==> before[k].deadline <= moment)
  }

  lemma SweepOn(before: Table, t: Table, ei: ExpiryIndex, at: Instant, moment: Instant)
    requires Sweeping(before, t, moment) && ExpiriesExact(ei, t) && at in ei && at <= moment
    ensures Sweeping(before, Unlisted(t, ei[at]), moment)
  {
    BucketPopped(ei, t, at);
  }

  lemma Swept(before: Table, t: Table, ei: ExpiryIndex, moment: Instant)
    requires Sweeping(before, t, moment) && ExpiriesExact(ei, t)
    requires forall at :: at in ei ==> at > moment
    ensures t == Live(before, moment)
  {
    forall k | k in t ensures t[k].deadline > moment { EarliestIsLeast(ei, t, k); }
  }

  class RouteTableShard {
    const config: ShardConfig
    var destinationIndex: DestinationIndex
    var registrationIndex: Table
    var activeLeaseIds: set<Uuid>
    var expiryIndex: ExpiryIndex
    var bindingCount: nat
    var expiryRecordCount: nat
    ghost var all: Bindings

    /** Everything but the expiry index agrees with the registrations. */
    ghost predicate CoreValid()
      reads this
    {
      && ConfigOk(config) && TableOk(config, registrationIndex)
      && IsFlat(config, registrationIndex, all) && DestinationsExact(destinationIndex, all)
      && activeLeaseIds == Leases(registrationIndex)
      && bindingCount == |all|
    }

    ghost predicate Valid()
      reads this
    {
      && CoreValid()
      && ExpiriesExact(expiryIndex, registrationIndex)
      && expiryRecordCount == |registrationIndex|
    }

    constructor (config: ShardConfig)
      requires ConfigOk(config)
      ensures Valid() && registrationIndex == map[] && this.config == config
    {
      this.config := config;
      destinationIndex, registrationIndex, activeLeaseIds, expiryIndex := map[], map[], {}, map[];
      bindingCount, expiryRecordCount, all := 0, 0, map[];
    }

    /** A new shard, unless the directory does not know it. */
    static method New(config: ShardConfig) returns (r: Result<RouteTableShard>)
      requires DirectoryOk(config.directory) && config.leaseTtl > 0
      ensures r.Ok? <==> config.shardId in config.directory.shards
      ensures r.Ok? ==> fresh(r.value) && r.value.Valid() && r.value.registrationIndex == map[]
                        && r.value.config == config
      ensures r.Err? ==> r.error == InvalidArgument
    {
      if config.shardId !in config.directory.shards { return Err(InvalidArgument); }
      var shard := new RouteTableShard(config);
      return Ok(shard);
    }

    // ----------------------------------------------------------- index helpers

    method InsertExpiry(key: RegistrationKey, lease: Uuid, deadline: Instant)
      modifies this`expiryIndex, this`expiryRecordCount
      ensures expiryIndex == AddExpiry(old(expiryIndex), deadline, ExpiryKey(key, lease))
      ensures expiryRecordCount == old(expiryRecordCount) +
                if Records(old(expiryIndex), deadline, ExpiryKey(key, lease)) then 0 else 1
    {
      var e := ExpiryKey(key, lease);
      var bucket := if deadline in expiryIndex then expiryIndex[deadline] else {};
      if e !in bucket { expiryRecordCount := expiryRecordCount + 1; }
      expiryIndex := expiryIndex[deadline := bucket + {e}];
    }

    method RemoveExpiry(key: RegistrationKey, lease: Uuid, deadline: Instant)
      requires Records(expiryIndex, deadline, ExpiryKey(key, lease)) ==> expiryRecordCount > 0
      modifies this`expiryIndex, this`expiryRecordCount
      ensures expiryIndex == DropExpiry(old(expiryIndex), deadline, ExpiryKey(key, lease))
      ensures expiryRecordCount == old(expiryRecordCount) -
                if Records(old(expiryIndex), deadline, ExpiryKey(key, lease)) then 1 else 0
    {
      var e := ExpiryKey(key, lease);
      if deadline in expiryIndex {
        if e in expiryIndex[deadline] { expiryRecordCount := expiryRecordCount - 1; }
        var bucket := expiryIndex[deadline] - {e};
        if bucket == {} { expiryIndex := expiryIndex - {deadline}; }
        else { expiryIndex := expiryIndex[deadline := bucket]; }
      }
    }

    method InsertBindings(b: Bindings, ghost after: Bindings)
      requires Filed(b) && Within(b, after) && DestinationsExact(destinationIndex, Less(after, b))
      modifies this`destinationIndex
      ensures DestinationsExact(destinationIndex, after)
    {
      var left := b;
      while left != map[]
        invariant Filed(left) && Within(left, after) && DestinationsExact(destinationIndex, Less(after, left))
        decreases |left|
      {
        var i :| i in left;
        AddBindingExact(destinationIndex, Less(after, left), left[i]);
        GiveEntry(after, left, i);
        destinationIndex := AddBinding(destinationIndex, left[i]);
        left := Except(left, i);
      }
      assert Less(after, map[]) == after;
    }

    method RemoveBindings(b: Bindings, ghost before: Bindings)
      requires DestinationsExact(destinationIndex, before) && Filed(b) && Within(b, before)
      modifies this`destinationIndex
      ensures DestinationsExact(destinationIndex, Less(before, b))
    {
      var left := b;
      ghost var now := before;
      while left != map[]
        invariant DestinationsExact(destinationIndex, now) && Filed(left) && Within(left, now)
        invariant Less(now, left) == Less(before, b)
        decreases |left|
      {
        var i :| i in left;
        DropBindingExact(destinationIndex, now, left[i]);
        TakeEntry(now, left, i);
        destinationIndex := DropBinding(destinationIndex, left[i]);
        now, left := Except(now, i), Except(left, i);
      }
      assert Less(now, map[]) == now;
    }

    method SwapBindings(gone: Bindings, come: Bindings, ghost before: Bindings, ghost after: Bindings)
      requires DestinationsExact(destinationIndex, before) && Filed(gone) && Within(gone, before)
      requires Filed(come) && Within(come, after) && Less(after, come) == Less(before, gone)
      modifies this`destinationIndex
      ensures DestinationsExact(destinationIndex, after)
    {
      RemoveBindings(gone, before);
      InsertBindings(come, after);
    }

    /** Takes one registration out of every index but, possibly, a popped expiry bucket. */
    method RemoveRegistration(key: RegistrationKey)
      requires CoreValid() && key in registrationIndex
      requires Records(expiryIndex, registrationIndex[key].deadline, ExpiryKey(key, registrationIndex[key].lease)) ==>
                 expiryRecordCount > 0
      modifies this
      ensures CoreValid() && registrationIndex == Remove(old(registrationIndex), key)
      ensures
        var r := old(registrationIndex)[key];
        && expiryIndex == DropExpiry(old(expiryIndex), r.deadline, ExpiryKey(key, r.lease))
        && expiryRecordCount == old(expiryRecordCount) -
             if Records(old(expiryIndex), r.deadline, ExpiryKey(key, r.lease)) then 1 else 0
    {
      var r := registrationIndex[key];
      CoreWithout(config, registrationIndex, key, all);
      registrationIndex := Remove(registrationIndex, key);
      bindingCount := bindingCount - |r.bindings|;
      activeLeaseIds := activeLeaseIds - {r.lease};
      RemoveExpiry(key, r.lease, r.deadline);
      RemoveBindings(r.bindings, all);
      all := Less(all, r.bindings);
    }

    /** Empties the bucket of deadline `at`: every record in it is current, so every one removes its registration. */
    method ExpireBucket(at: Instant, now: Instant) returns (expired: nat)
      requires Valid() && at in expiryIndex && at <= now
      modifies this
      ensures Valid() && expiryIndex == old(expiryIndex) - {at}
      ensures registrationIndex == Unlisted(old(registrationIndex), old(expiryIndex)[at])
      ensures expired == |old(registrationIndex)| - |registrationIndex|
    {
      expired := 0;
      var candidates := expiryIndex[at];
      BucketPopped(expiryIndex, registrationIndex, at);
      BucketSize(registrationIndex, at, candidates);
      expiryIndex := expiryIndex - {at};
      expiryRecordCount := expiryRecordCount - |candidates|;
      ghost var target := Unlisted(registrationIndex, candidates);
      while candidates != {}
        invariant CoreValid() && Pending(registrationIndex, at, candidates)
        invariant Unlisted(registrationIndex, candidates) == target
        invariant expiryIndex == old(expiryIndex) - {at} && expiryRecordCount == |target|
        invariant expired == |old(registrationIndex)| - |registrationIndex|
        decreases candidates
      {
        var e :| e in candidates;
        PendingHandled(registrationIndex, at, candidates, e);
        candidates := candidates - {e};
        if e.key in registrationIndex && registrationIndex[e.key].lease == e.lease
           && registrationIndex[e.key].deadline <= now {
          WithoutSize(registrationIndex, e.key);
          RemoveRegistration(e.key);
          expired := expired + 1;
        }
      }
      NothingPending(registrationIndex);
    }

    /** Removes exactly the registrations whose deadline has come, and counts them. */
    method ExpireDue(now: Instant) returns (expired: nat)
      requires Valid()
      modifies this
      ensures Valid() && registrationIndex == Live(old(registrationIndex), now)
      ensures expired == |old(registrationIndex)| - |registrationIndex|
    {
      expired := 0;
      var first := FirstDeadline(expiryIndex);
      while first.Some? && first.value <= now
        invariant Valid() && Sweeping(old(registrationIndex), registrationIndex, now)
        invariant expired == |old(registrationIndex)| - |registrationIndex|
        invariant first == FirstDeadline(expiryIndex)
        decreases expiryIndex.Keys
      {
        var at := first.value;
        SweepOn(old(registrationIndex), registrationIndex, expiryIndex, at, now);
        var n := ExpireBucket(at, now);
        expired := expired + n;
        first := FirstDeadline(expiryIndex);
      }
      Swept(old(registrationIndex), registrationIndex, expiryIndex, now);
    }

    // ---------------------------------------------------------------- requests

    /** Adds a registration that is not there yet, without bindings. */
    method AddRegistration(key: RegistrationKey, lease: Uuid, deadline: Instant)
      requires Valid() && key !in registrationIndex && key.shardId == config.shardId && lease !in activeLeaseIds
      modifies this`registrationIndex, this`activeLeaseIds, this`expiryIndex, this`expiryRecordCount
      ensures Valid() && registrationIndex == old(registrationIndex)[key := Registration(lease, None, deadline, map[])]
    {
      ghost var r := Registration(lease, None, deadline, map[]);
      CoreWithEmpty(config, registrationIndex, key, r, all);
      AddExpiryExact(expiryIndex, registrationIndex, key, r);
      registrationIndex := registrationIndex[key := Registration(lease, None, deadline, map[])];
      activeLeaseIds := activeLeaseIds + {lease};
      InsertExpiry(key, lease, deadline);
    }

    method Register(gateway: Uuid, generation: Generation, key: RegistrationKey, now: Instant, draw: Uuid)
      returns (reply: Reply)
      requires Valid() && CallOk(registrationIndex, Call(gateway, generation, Request.Register(key), now, draw))
      modifies this
      ensures Valid()
      ensures (registrationIndex, reply) ==
              Answer(config, old(registrationIndex), Call(gateway, generation, Request.Register(key), now, draw))
    {
      if gateway != key.gatewayId { return Refused(PermissionDenied); }
      if generation != config.directory.generation { return Refused(FailedPrecondition); }
      if key.shardId != config.shardId { return Refused(InvalidArgument); }
      var _ := ExpireDue(now);
      if key in registrationIndex {
        assert registrationIndex[key := registrationIndex[key]] == registrationIndex;
        return Acked(AckOf(registrationIndex[key], now));
      }
      if now + config.leaseTtl > config.horizon {
        assert Remove(registrationIndex, key) == registrationIndex;
        return Refused(DeadlineOverflow);
      }
      AddRegistration(key, draw, now + config.leaseTtl);
      return Acked(RegistrationAck(draw, None, config.leaseTtl));
    }

    /** Replaces the bindings of a live registration; lease and deadline stay. */
    method ReplaceBindings(key: RegistrationKey, revision: nat, snapshot: Bindings)
      requires Valid() && key in registrationIndex
      requires RegistrationOk(config, key, registrationIndex[key].(revision := Some(revision), bindings := snapshot))
      modifies this`registrationIndex, this`bindingCount, this`destinationIndex, this`all
      ensures Valid()
      ensures registrationIndex ==
              var r := old(registrationIndex)[key];
              old(registrationIndex)[key := r.(revision := Some(revision), bindings := snapshot)]
    {
      var r := registrationIndex[key];
      var updated := r.(revision := Some(revision), bindings := snapshot);
      ghost var after := CoreReplace(config, registrationIndex, key, updated, all);
      ReplaceExpiries(expiryIndex, registrationIndex, key, updated);
      registrationIndex := registrationIndex[key := updated];
      bindingCount := bindingCount - |r.bindings|;
      bindingCount := bindingCount + |snapshot|;
      SwapBindings(r.bindings, snapshot, all, after);
      all := after;
    }

    method Update(gateway: Uuid, generation: Generation, key: RegistrationKey, lease: Uuid, revision: nat,
                  snapshot: Bindings, now: Instant, ghost draw: Uuid)
      returns (reply: Reply)
      requires Valid()
      requires CallOk(registrationIndex,
                      Call(gateway, generation, Request.Update(key, lease, revision, snapshot), now, draw))
      modifies this
      ensures Valid()
      ensures (registrationIndex, reply) ==
              Answer(config, old(registrationIndex),
                     Call(gateway, generation, Request.Update(key, lease, revision, snapshot), now, draw))
    {
      if gateway != key.gatewayId { return Refused(PermissionDenied); }
      if generation != config.directory.generation { return Refused(FailedPrecondition); }
      if key.shardId != config.shardId { return Refused(InvalidArgument); }
      if !InScope(config, key, snapshot) { return Refused(InvalidArgument); }
      var _ := ExpireDue(now);
      reply := UpdateLive(key, lease, revision, snapshot, now);
    }

    method UpdateLive(key: RegistrationKey, lease: Uuid, revision: nat, snapshot: Bindings, now: Instant)
      returns (reply: Reply)
      requires Valid() && key.shardId == config.shardId && SnapshotOk(snapshot) && InScope(config, key, snapshot)
      modifies this
      ensures Valid()
      ensures var out := OnUpdate(SlotOf(old(registrationIndex), key), lease, revision, snapshot, now);
              registrationIndex == PutSlot(old(registrationIndex), key, out.slot) && reply == out.reply
    {
      if key !in registrationIndex {
        assert Remove(registrationIndex, key) == registrationIndex;
        return Refused(FailedPrecondition);
      }
      var r := registrationIndex[key];
      assert registrationIndex[key := r] == registrationIndex;
      if r.lease != lease { return Refused(FailedPrecondition); }
      match r.revision {
        case None => if revision != FIRST_REVISION { return Refused(FailedPrecondition); }
        case Some(current) =>
          if revision == current {
            if r.bindings == snapshot { return Acked(AckOf(r, now)); }
            return Refused(FailedPrecondition);
          }
          if revision < current { return Refused(FailedPrecondition); }
      }
      if !Stable(r.bindings, snapshot) { return Refused(FailedPrecondition); }
      ReplaceBindings(key, revision, snapshot);
      return Acked(RegistrationAck(lease, Some(revision), if r.deadline > now then r.deadline - now else 0));
    }

    /** Gives a live registration the deadline `deadline` and moves its expiry record there. */
    method MoveDeadline(key: RegistrationKey, deadline: Instant)
      requires Valid() && key in registrationIndex
      modifies this
      ensures Valid()
      ensures registrationIndex == old(registrationIndex)[key := old(registrationIndex)[key].(deadline := deadline)]
    {
      var r := registrationIndex[key];
      var moved := r.(deadline := deadline);
      assert RegistrationOk(config, key, r);
      CoreMoves(config, registrationIndex, key, moved, all);
      MoveExpiryExact(expiryIndex, registrationIndex, key, moved);
      registrationIndex := registrationIndex[key := moved];
      RemoveExpiry(key, r.lease, r.deadline);
      InsertExpiry(key, r.lease, deadline);
    }

    method KeepAlive(gateway: Uuid, generation: Generation, key: RegistrationKey, lease: Uuid, now: Instant,
                     ghost draw: Uuid)
      returns (reply: Reply)
      requires Valid()
      modifies this
      ensures Valid()
      ensures (registrationIndex, reply) ==
              Answer(config, old(registrationIndex),
                     Call(gateway, generation, Request.KeepAlive(key, lease), now, draw))
    {
      if gateway != key.gatewayId { return Refused(PermissionDenied); }
      if generation != config.directory.generation { return Refused(FailedPrecondition); }
      if key.shardId != config.shardId { return Refused(InvalidArgument); }
      var _ := ExpireDue(now);
      if key !in registrationIndex {
        assert Remove(registrationIndex, key) == registrationIndex;
        return Refused(FailedPrecondition);
      }
      var r := registrationIndex[key];
      assert registrationIndex[key := r] == registrationIndex;
      if r.lease != lease { return Refused(FailedPrecondition); }
      if now + config.leaseTtl > config.horizon { return Refused(DeadlineOverflow); }
      MoveDeadline(key, now + config.leaseTtl);
      return Acked(RegistrationAck(lease, r.revision, config.leaseTtl));
    }

    method Deregister(gateway: Uuid, generation: Generation, key: RegistrationKey, lease: Uuid, now: Instant,
                      ghost draw: Uuid)
      returns (reply: Reply)
      requires Valid()
      modifies this
      ensures Valid()
      ensures (registrationIndex, reply) ==
              Answer(config, old(registrationIndex),
                     Call(gateway, generation, Request.Deregister(key, lease), now, draw))
    {
      if gateway != key.gatewayId { return Refused(PermissionDenied); }
      if generation != config.directory.generation { return Refused(FailedPrecondition); }
      if key.shardId != config.shardId { return Refused(InvalidArgument); }
      var _ := ExpireDue(now);
      if key !in registrationIndex {
        assert Remove(registrationIndex, key) == registrationIndex;
        return Deregistered;
      }
      if registrationIndex[key].lease != lease {
        assert registrationIndex[key := registrationIndex[key]] == registrationIndex;
        return Refused(FailedPrecondition);
      }
      DropExpiryExact(expiryIndex, registrationIndex, key);
      WithoutSize(registrationIndex, key);
      RemoveRegistration(key);
      return Deregistered;
    }

    /** RESOLVE: exactly the unexpired bindings of the Destination, or NotFound when there are none. */
    method Resolve(generation: Generation, destination: Destination, now: Instant) returns (r: Result<Bindings>)
      requires Valid()
      modifies this
      ensures Valid()
      ensures generation != config.directory.generation ==>
                r == Err(FailedPrecondition) && registrationIndex == old(registrationIndex)
      ensures generation == config.directory.generation
              && Authority(config.directory, destination) != config.shardId ==>
                r == Err(InvalidArgument) && registrationIndex == old(registrationIndex)
      ensures generation == config.directory.generation
              && Authority(config.directory, destination) == config.shardId ==>
                && registrationIndex == Live(old(registrationIndex), now)
                && (r.Ok? ==> r.value != map[] && Resolves(config, old(registrationIndex), now, destination, r.value))
                && (r.Err? ==> r.error == NotFound && Resolves(config, old(registrationIndex), now, destination, map[]))
    {
      if generation != config.directory.generation { return Err(FailedPrecondition); }
      if Authority(config.directory, destination) != config.shardId { return Err(InvalidArgument); }
      var _ := ExpireDue(now);
      GroupResolves(config, registrationIndex, all, destinationIndex, destination);
      if destination !in destinationIndex { return Err(NotFound); }
      return Ok(destinationIndex[destination]);
    }

    /** The earliest active lease deadline, if there is one. */
    method NextExpiryDeadline() returns (first: Option<Instant>)
      requires Valid()
      ensures first.None? <==> registrationIndex == map[]
      ensures first.Some? ==>
                && (forall k :: k in registrationIndex ==> first.value <= registrationIndex[k].deadline)
                && (exists k :: k in registrationIndex && registrationIndex[k].deadline == first.value)
    {
      first := FirstDeadline(expiryIndex);
      DeadlinesOnRecord(expiryIndex, registrationIndex);
    }
  }
}
