/**
 What a shard answers, in its callers' terms: which error comes back for which
 call, what each accepted call leaves in the table, and where every binding a
 lookup returns came from.
 */
module RouteAnswers {
  import opened Common
  import opened RouteModel
  import opened RouteTable

  // ------------------------------------------------------------ who may ask

  /** A binding the snapshot's owner may not store here: of another session, or of another shard's Destination. */
  predicate Stray(c: ShardConfig, key: RegistrationKey, p: BindingProjection)
    requires c.directory.shards != []
  {
    || p.identity.gatewayId != key.gatewayId
    || p.identity.relaySessionId != key.relaySessionId
    || c.directory.shards[c.directory.hash(p.destination) % |c.directory.shards|] != c.shardId
  }

  predicate HoldsStray(c: ShardConfig, key: RegistrationKey, b: Bindings)
    requires c.directory.shards != []
  {
    exists i :: i in b && Stray(c, key, b[i])
  }

  /** A call made by the key's own Gateway, of this directory generation, to the right shard, with nothing stray. */
  predicate Entitled(c: ShardConfig, call: Call)
    requires c.directory.shards != []
  {
    && call.gateway == call.request.key.gatewayId
    && call.generation == c.directory.generation
    && call.request.key.shardId == c.shardId
    && (call.request.Update? ==> !HoldsStray(c, call.request.key, call.request.snapshot))
  }

  lemma ScopeIsNoStray(c: ShardConfig, key: RegistrationKey, b: Bindings)
    requires c.directory.shards != []
    ensures InScope(c, key, b) <==> !HoldsStray(c, key, b)
  {
    if !HoldsStray(c, key, b) { assert forall i :: i in b ==> !Stray(c, key, b[i]); }
    else {
      var i :| i in b && Stray(c, key, b[i]);
      assert b[i] == b[i];
    }
  }

  /** The first objection that applies decides the error, and the table stays as it was, expired leases included. */
  lemma NotEntitled(c: ShardConfig, t: Table, call: Call)
    requires c.directory.shards != []
    ensures var key := call.request.key;
            && (call.gateway != key.gatewayId ==> Answer(c, t, call) == (t, Refused(PermissionDenied)))
            && (call.gateway == key.gatewayId && call.generation != c.directory.generation ==>
                  Answer(c, t, call) == (t, Refused(FailedPrecondition)))
            && (call.gateway == key.gatewayId && call.generation == c.directory.generation && !Entitled(c, call) ==>
                  Answer(c, t, call) == (t, Refused(InvalidArgument)))
  {
    if call.request.Update? { ScopeIsNoStray(c, call.request.key, call.request.snapshot); }
  }

  // ------------------------------------------------------ what they then get

  /** The registration of `key` whose lease has not run out. */
  predicate Held(t: Table, key: RegistrationKey, now: Instant) { key in t && now < t[key].deadline }

  /** Apart from `key`, the table lost the registrations whose lease had run out, and nothing else changed. */
  ghost predicate OthersSwept(t: Table, after: Table, key: RegistrationKey, now: Instant) {
    forall k :: k != key ==> (k in after <==> Held(t, k, now)) && (k in after ==> after[k] == t[k])
  }

  /** The registration stayed as it was, if it was held at all. */
  ghost predicate Kept(t: Table, after: Table, key: RegistrationKey, now: Instant) {
    if Held(t, key, now) then key in after && after[key] == t[key] else key !in after
  }

  lemma Passed(c: ShardConfig, t: Table, call: Call)
    requires c.directory.shards != [] && Entitled(c, call)
    ensures Refusal(c, call).None?
    ensures OthersSwept(t, Answer(c, t, call).0, call.request.key, call.now)
    ensures SlotOf(Live(t, call.now), call.request.key) ==
            if Held(t, call.request.key, call.now) then Some(t[call.request.key]) else None
  {
    if call.request.Update? { ScopeIsNoStray(c, call.request.key, call.request.snapshot); }
  }

  /** REGISTER of a held key returns the lease it has; otherwise it starts one, without bindings or revision. */
  lemma RegisterAnswered(c: ShardConfig, t: Table, call: Call)
    requires c.directory.shards != [] && Entitled(c, call) && call.request.Register?
    ensures var (after, reply) := Answer(c, t, call);
            var key := call.request.key;
            && OthersSwept(t, after, key, call.now)
            && (Held(t, key, call.now) ==>
                  && Kept(t, after, key, call.now)
                  && reply == Acked(RegistrationAck(t[key].lease, t[key].revision, t[key].deadline - call.now)))
            && (!Held(t, key, call.now) && call.now + c.leaseTtl <= c.horizon ==>
                  && key in after
                  && after[key] == Registration(call.draw, None, call.now + c.leaseTtl, map[])
                  && reply == Acked(RegistrationAck(call.draw, None, c.leaseTtl)))
            && (!Held(t, key, call.now) && call.now + c.leaseTtl > c.horizon ==>
                  key !in after && reply == Refused(DeadlineOverflow))
  {
    Passed(c, t, call);
  }

  /** A revision that may follow: the first is 1, and then they rise. */
  predicate Follows(current: Option<nat>, revision: nat) {
    match current
    case None => revision == 1
    case Some(r) => r < revision
  }

  /** Holds the lease and brings a new revision under which no binding it keeps changes. */
  ghost predicate MayReplace(t: Table, key: RegistrationKey, lease: Uuid, revision: nat, snapshot: Bindings,
                             now: Instant) {
    && Held(t, key, now) && t[key].lease == lease && Follows(t[key].revision, revision)
    && (forall i :: i in snapshot && i in t[key].bindings ==> snapshot[i] == t[key].bindings[i])
  }

  /** Says again what the registration already has. */
  predicate Repeats(t: Table, key: RegistrationKey, lease: Uuid, revision: nat, snapshot: Bindings, now: Instant) {
    Held(t, key, now) && t[key].lease == lease && t[key].revision == Some(revision) && t[key].bindings == snapshot
  }

  /** UPDATE succeeds exactly when it may replace or repeats; it then holds the snapshot, and the deadline stands. */
  lemma UpdateAnswered(c: ShardConfig, t: Table, call: Call)
    requires c.directory.shards != [] && Entitled(c, call) && call.request.Update?
    ensures var (after, reply) := Answer(c, t, call);
            var Update(key, lease, revision, snapshot) := call.request;
            && OthersSwept(t, after, key, call.now)
            && (if MayReplace(t, key, lease, revision, snapshot, call.now)
                   || Repeats(t, key, lease, revision, snapshot, call.now)
                then
                  && key in after
                  && after[key] == Registration(lease, Some(revision), t[key].deadline, snapshot)
                  && reply == Acked(RegistrationAck(lease, Some(revision), t[key].deadline - call.now))
                else
                  Kept(t, after, key, call.now) && reply == Refused(FailedPrecondition))
  {
    Passed(c, t, call);
    UpdateOfSlot(t, call.request.key, call.request.lease, call.request.revision, call.request.snapshot, call.now);
  }

  lemma UpdateOfSlot(t: Table, key: RegistrationKey, lease: Uuid, revision: nat, snapshot: Bindings, now: Instant)
    ensures var slot := if Held(t, key, now) then Some(t[key]) else None;
            OnUpdate(slot, lease, revision, snapshot, now) ==
            if MayReplace(t, key, lease, revision, snapshot, now) || Repeats(t, key, lease, revision, snapshot, now)
            then Outcome(Some(Registration(lease, Some(revision), t[key].deadline, snapshot)),
                         Acked(RegistrationAck(lease, Some(revision), t[key].deadline - now)))
            else Outcome(slot, Refused(FailedPrecondition))
  {
  }

  /** KEEP_ALIVE needs the current lease; it moves the deadline one lease length past now and nothing else. */
  lemma KeepAliveAnswered(c: ShardConfig, t: Table, call: Call)
    requires c.directory.shards != [] && Entitled(c, call) && call.request.KeepAlive?
    ensures var (after, reply) := Answer(c, t, call);
            var KeepAlive(key, lease) := call.request;
            && OthersSwept(t, after, key, call.now)
            && (if !Held(t, key, call.now) || t[key].lease != lease then
                  Kept(t, after, key, call.now) && reply == Refused(FailedPrecondition)
                else if call.now + c.leaseTtl > c.horizon then
                  Kept(t, after, key, call.now) && reply == Refused(DeadlineOverflow)
                else
                  && key in after
                  && after[key] == Registration(lease, t[key].revision, call.now + c.leaseTtl, t[key].bindings)
                  && reply == Acked(RegistrationAck(lease, t[key].revision, c.leaseTtl)))
  {
    Passed(c, t, call);
  }

  /** DEREGISTER of a key not held succeeds; of a held key it needs the current lease, and the key is then gone. */
  lemma DeregisterAnswered(c: ShardConfig, t: Table, call: Call)
    requires c.directory.shards != [] && Entitled(c, call) && call.request.Deregister?
    ensures var (after, reply) := Answer(c, t, call);
            var Deregister(key, lease) := call.request;
            && OthersSwept(t, after, key, call.now)
            && (if Held(t, key, call.now) && t[key].lease != lease then
                  Kept(t, after, key, call.now) && reply == Refused(FailedPrecondition)
                else key !in after && reply == Deregistered)
  {
    Passed(c, t, call);
  }

  // ------------------------------------------------- where bindings come from

  /** Step `j` is an UPDATE of `k`, by the Gateway it belongs to, that the shard acknowledged. */
  ghost predicate UpdatedAt(c: ShardConfig, steps: seq<Step>, k: RegistrationKey, j: nat)
    requires c.directory.shards != []
  {
    && j < |steps| && steps[j].Ask? && Updates(steps[j].call, k)
    && Answer(c, After(c, steps[..j]), steps[j].call).1.Acked?
  }

  predicate Updates(call: Call, k: RegistrationKey) { call.request.Update? && call.request.key == k }

  /** One call either has its snapshot accepted for `k`, or leaves what `k` holds, or starts `k` empty. */
  lemma AskedBindings(c: ShardConfig, t: Table, call: Call, k: RegistrationKey)
    requires c.directory.shards != [] && k in Answer(c, t, call).0
    ensures var r := Answer(c, t, call).0[k];
            if Updates(call, k) && Answer(c, t, call).1.Acked? then
              && Entitled(c, call)
              && r.lease == call.request.lease && r.revision == Some(call.request.revision)
              && r.bindings == call.request.snapshot
            else
              || (k in t && r.lease == t[k].lease && r.revision == t[k].revision && r.bindings == t[k].bindings)
              || (r.revision.None? && r.bindings == map[])
  {
    NotEntitled(c, t, call);
    if Entitled(c, call) {
      if call.request.Register? { RegisterAnswered(c, t, call); }
      else if call.request.Update? { UpdateAnswered(c, t, call); }
      else if call.request.KeepAlive? { KeepAliveAnswered(c, t, call); }
      else { DeregisterAnswered(c, t, call); }
    }
  }

  /** A step that has no UPDATE of `k` acknowledged adds no bindings to it. */
  lemma Inherited(c: ShardConfig, t: Table, x: Step, k: RegistrationKey)
    requires c.directory.shards != [] && k in Next(c, t, x)
    requires !(x.Ask? && Updates(x.call, k) && Answer(c, t, x.call).1.Acked?)
    ensures var r := Next(c, t, x)[k];
            if r.revision.None?
            then r.bindings == map[] || (k in t && t[k].revision.None? && t[k].bindings == r.bindings)
            else k in t && r.lease == t[k].lease && r.revision == t[k].revision && r.bindings == t[k].bindings
  {
    if x.Ask? { AskedBindings(c, t, x.call, k); }
  }

  lemma SameUpdates(c: ShardConfig, init: seq<Step>, steps: seq<Step>, k: RegistrationKey, m: nat)
    requires c.directory.shards != [] && init <= steps && m < |init|
    ensures UpdatedAt(c, init, k, m) <==> UpdatedAt(c, steps, k, m)
  {
    assert init[..m] == steps[..m];
  }

  /** No step after `j` is an acknowledged UPDATE of `k`. */
  ghost predicate NoneSince(c: ShardConfig, steps: seq<Step>, k: RegistrationKey, j: nat)
    requires c.directory.shards != []
  {
    forall m: nat :: j < m < |steps| ==> !UpdatedAt(c, steps, k, m)
  }

  lemma NotUpdatedAt(c: ShardConfig, init: seq<Step>, steps: seq<Step>, k: RegistrationKey, j: nat, m: nat)
    requires c.directory.shards != [] && init <= steps && |steps| == |init| + 1 && j < m < |steps|
    requires !UpdatedAt(c, steps, k, |init|) && NoneSince(c, init, k, j)
    ensures !UpdatedAt(c, steps, k, m)
  {
    if m < |init| { SameUpdates(c, init, steps, k, m); }
  }

  lemma NoLaterUpdate(c: ShardConfig, init: seq<Step>, steps: seq<Step>, k: RegistrationKey, j: nat)
    requires c.directory.shards != [] && steps != [] && init == steps[..|steps| - 1]
    requires UpdatedAt(c, init, k, j) && !UpdatedAt(c, steps, k, |init|) && NoneSince(c, init, k, j)
    ensures UpdatedAt(c, steps, k, j) && NoneSince(c, steps, k, j)
  {
    SameUpdates(c, init, steps, k, j);
    forall m: nat | j < m < |steps| ensures !UpdatedAt(c, steps, k, m) { NotUpdatedAt(c, init, steps, k, j, m); }
  }

  /** In every run what a registration holds is what its own Gateway last had acknowledged, lease and revision too. */
  lemma {:induction false} BindingsFromUpdate(c: ShardConfig, steps: seq<Step>, k: RegistrationKey)
    returns (j: nat)
    requires c.directory.shards != [] && k in After(c, steps) && After(c, steps)[k].revision.Some?
    ensures UpdatedAt(c, steps, k, j) && Entitled(c, steps[j].call)
    ensures var r := After(c, steps)[k];
            steps[j].call.request == Update(k, r.lease, r.revision.value, r.bindings)
    ensures NoneSince(c, steps, k, j)
  {
    var n := |steps| - 1;
    var init := steps[..n];
    if UpdatedAt(c, steps, k, n) {
      AskedBindings(c, After(c, init), steps[n].call, k);
      j := n;
    } else {
      Inherited(c, After(c, init), steps[n], k);
      j := BindingsFromUpdate(c, init, k);
      NoLaterUpdate(c, init, steps, k, j);
    }
  }

  /** And one that never had an UPDATE acknowledged holds nothing. */
  lemma {:induction false} NothingBeforeUpdate(c: ShardConfig, steps: seq<Step>, k: RegistrationKey)
    requires c.directory.shards != [] && k in After(c, steps) && After(c, steps)[k].revision.None?
    ensures After(c, steps)[k].bindings == map[]
  {
    var n := |steps| - 1;
    var init := steps[..n];
    if !UpdatedAt(c, steps, k, n) { Inherited(c, After(c, init), steps[n], k); }
    else { AskedBindings(c, After(c, init), steps[n].call, k); }
    if k in After(c, init) && After(c, init)[k].revision.None? { NothingBeforeUpdate(c, init, k); }
  }

  /** Every binding a lookup returns was sent, as it is, by the Gateway it names, and has not been replaced since. */
  lemma ResolvedBindingsWereSent(c: ShardConfig, steps: seq<Step>, now: Instant, d: Destination, b: Bindings,
                                 i: BindingIdentity)
    returns (j: nat)
    requires c.directory.shards != [] && Resolves(c, After(c, steps), now, d, b) && i in b
    ensures UpdatedAt(c, steps, KeyOf(c, i), j)
    ensures steps[j].call.gateway == i.gatewayId && b[i].destination == d
    ensures i in steps[j].call.request.snapshot && steps[j].call.request.snapshot[i] == b[i]
    ensures NoneSince(c, steps, KeyOf(c, i), j)
  {
    var k := KeyOf(c, i);
    assert k in Live(After(c, steps), now);
    if After(c, steps)[k].revision.None? { NothingBeforeUpdate(c, steps, k); }
    j := BindingsFromUpdate(c, steps, k);
  }
}
