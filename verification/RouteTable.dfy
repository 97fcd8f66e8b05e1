/**
 A RouteTable shard as a plain map from registration key to lease, revision,
 deadline and bindings: what each request does to the map and answers.
 */
module RouteTable {
  import opened Common
  import opened RouteModel

  datatype Registration = Registration(lease: Uuid, revision: Option<nat>, deadline: Instant, bindings: Bindings)

  type Table = map<RegistrationKey, Registration>

  /** `horizon` is the last moment the clock can express. */
  datatype ShardConfig = ShardConfig(directory: Directory, shardId: ShardId, leaseTtl: nat, horizon: nat)

  ghost predicate ConfigOk(c: ShardConfig) {
    DirectoryOk(c.directory) && c.shardId in c.directory.shards && c.leaseTtl > 0
  }

  datatype Request =
    | Register(key: RegistrationKey)
    | Update(key: RegistrationKey, lease: Uuid, revision: nat, snapshot: Bindings)
    | KeepAlive(key: RegistrationKey, lease: Uuid)
    | Deregister(key: RegistrationKey, lease: Uuid)

  datatype Reply = Acked(ack: RegistrationAck) | Deregistered | Refused(error: RouteTableError)

  /** One authenticated call; `draw` is the lease id a new registration would get. */
  datatype Call = Call(gateway: Uuid, generation: Generation, request: Request, now: Instant, draw: Uuid)

  // ------------------------------------------------------------- validation

  /** Every binding belongs to the key's session and to this shard. */
  predicate InScope(c: ShardConfig, key: RegistrationKey, b: Bindings)
    requires c.directory.shards != []
  {
    forall i :: i in b ==>
      && b[i].identity.gatewayId == key.gatewayId
      && b[i].identity.relaySessionId == key.relaySessionId
      && Authority(c.directory, b[i].destination) == c.shardId
  }

  function Refusal(c: ShardConfig, call: Call): Option<RouteTableError>
    requires c.directory.shards != []
  {
    var r := call.request;
    if call.gateway != r.key.gatewayId then Some(PermissionDenied)
    else if call.generation != c.directory.generation then Some(FailedPrecondition)
    else if r.key.shardId != c.shardId then Some(InvalidArgument)
    else if r.Update? && !InScope(c, r.key, r.snapshot) then Some(InvalidArgument)
    else None
  }

  // ---------------------------------------------------------------- one key

  function AckOf(r: Registration, now: Instant): RegistrationAck {
    RegistrationAck(r.lease, r.revision, if r.deadline > now then r.deadline - now else 0)
  }

  /** An active identity may not change its Destination or locator. */
  predicate Stable(current: Bindings, next: Bindings) {
    forall i :: i in next && i in current ==> current[i] == next[i]
  }

  datatype Outcome = Outcome(slot: Option<Registration>, reply: Reply)

  function OnRegister(c: ShardConfig, slot: Option<Registration>, now: Instant, draw: Uuid): Outcome {
    match slot
    case Some(r) => Outcome(slot, Acked(AckOf(r, now)))
    case None =>
      if now + c.leaseTtl > c.horizon then Outcome(None, Refused(DeadlineOverflow))
      else Outcome(Some(Registration(draw, None, now + c.leaseTtl, map[])),
                   Acked(RegistrationAck(draw, None, c.leaseTtl)))
  }

  function OnUpdate(slot: Option<Registration>, lease: Uuid, revision: nat, snapshot: Bindings, now: Instant): Outcome {
    if slot.None? || slot.value.lease != lease then Outcome(slot, Refused(FailedPrecondition))
    else
      var r := slot.value;
      if r.revision.None? && revision != FIRST_REVISION then Outcome(slot, Refused(FailedPrecondition))
      else if r.revision == Some(revision) then
        if r.bindings == snapshot then Outcome(slot, Acked(AckOf(r, now)))
        else Outcome(slot, Refused(FailedPrecondition))
      else if r.revision.Some? && revision < r.revision.value then Outcome(slot, Refused(FailedPrecondition))
      else if !Stable(r.bindings, snapshot) then Outcome(slot, Refused(FailedPrecondition))
      else
        var updated := r.(revision := Some(revision), bindings := snapshot);
        Outcome(Some(updated), Acked(AckOf(updated, now)))
  }

  function OnKeepAlive(c: ShardConfig, slot: Option<Registration>, lease: Uuid, now: Instant): Outcome {
    if slot.None? || slot.value.lease != lease then Outcome(slot, Refused(FailedPrecondition))
    else if now + c.leaseTtl > c.horizon then Outcome(slot, Refused(DeadlineOverflow))
    else
      Outcome(Some(slot.value.(deadline := now + c.leaseTtl)),
              Acked(RegistrationAck(lease, slot.value.revision, c.leaseTtl)))
  }

  function OnDeregister(slot: Option<Registration>, lease: Uuid): Outcome {
    if slot.None? then Outcome(None, Deregistered)
    else if slot.value.lease != lease then Outcome(slot, Refused(FailedPrecondition))
    else Outcome(None, Deregistered)
  }

  /** A valid request against the key's live registration. */
  function OnSlot(c: ShardConfig, r: Request, slot: Option<Registration>, now: Instant, draw: Uuid): Outcome {
    match r
    case Register(_) => OnRegister(c, slot, now, draw)
    case Update(_, lease, revision, snapshot) => OnUpdate(slot, lease, revision, snapshot, now)
    case KeepAlive(_, lease) => OnKeepAlive(c, slot, lease, now)
    case Deregister(_, lease) => OnDeregister(slot, lease)
  }

  // -------------------------------------------------------------- the table

  /** The registrations whose lease has not run out. */
  function Live(t: Table, now: Instant): Table { map k | k in t && t[k].deadline > now :: t[k] }

  function SlotOf(t: Table, key: RegistrationKey): Option<Registration> {
    if key in t then Some(t[key]) else None
  }

  function Remove(t: Table, key: RegistrationKey): Table { map k | k in t && k != key :: t[k] }

  function PutSlot(t: Table, key: RegistrationKey, slot: Option<Registration>): Table {
    match slot
    case Some(r) => t[key := r]
    case None => Remove(t, key)
  }

  /** The map and the answer after one call. A call that fails validation does not even sweep expired leases. */
  function Answer(c: ShardConfig, t: Table, call: Call): (Table, Reply)
    requires c.directory.shards != []
  {
    match Refusal(c, call)
    case Some(error) => (t, Refused(error))
    case None =>
      var live := Live(t, call.now);
      var out := OnSlot(c, call.request, SlotOf(live, call.request.key), call.now, call.draw);
      (PutSlot(live, call.request.key, out.slot), out.reply)
  }

  // -------------------------------------------------------- what calls keep

  function Leases(t: Table): set<Uuid> { set k | k in t :: t[k].lease }

  predicate SharesLease(t: Table, k: RegistrationKey, l: RegistrationKey) {
    k in t && l in t && t[k].lease == t[l].lease
  }

  ghost predicate LeasesDistinct(t: Table) {
    forall k, l :: SharesLease(t, k, l) ==> k == l
  }

  ghost predicate RegistrationOk(c: ShardConfig, key: RegistrationKey, r: Registration)
    requires c.directory.shards != []
  {
    && key.shardId == c.shardId
    && Filed(r.bindings) && InScope(c, key, r.bindings)
    && (r.revision.None? <==> r.bindings == map[])
  }

  /** Registrations are in scope and no lease id is shared. */
  ghost predicate TableOk(c: ShardConfig, t: Table)
    requires c.directory.shards != []
  {
    && (forall k {:trigger RegistrationOk(c, k, t[k])} :: k in t ==> RegistrationOk(c, k, t[k]))
    && LeasesDistinct(t)
  }

  /** What a caller guarantees: snapshots are well formed, and a drawn lease id is not in use. */
  ghost predicate CallOk(t: Table, call: Call) {
    && (call.request.Update? ==> SnapshotOk(call.request.snapshot))
    && call.draw !in Leases(Live(t, call.now))
  }

  lemma LiveOk(c: ShardConfig, t: Table, now: Instant)
    requires c.directory.shards != [] && TableOk(c, t)
    ensures TableOk(c, Live(t, now))
  {
    forall k | k in Live(t, now) ensures RegistrationOk(c, k, Live(t, now)[k]) { assert RegistrationOk(c, k, t[k]); }
    forall k, l | SharesLease(Live(t, now), k, l) ensures k == l { assert SharesLease(t, k, l); }
  }

  lemma SlotOk(c: ShardConfig, r: Request, slot: Option<Registration>, now: Instant, draw: Uuid)
    requires c.directory.shards != [] && r.key.shardId == c.shardId
    requires slot.Some? ==> RegistrationOk(c, r.key, slot.value)
    requires r.Update? ==> SnapshotOk(r.snapshot) && InScope(c, r.key, r.snapshot)
    ensures var out := OnSlot(c, r, slot, now, draw).slot;
            && (out.Some? ==> RegistrationOk(c, r.key, out.value))
            && (out.Some? ==> out.value.lease == if slot.Some? then slot.value.lease else draw)
  {
  }

  lemma PutSlotOk(c: ShardConfig, t: Table, key: RegistrationKey, slot: Option<Registration>)
    requires c.directory.shards != [] && TableOk(c, t)
    requires slot.Some? ==> RegistrationOk(c, key, slot.value)
    requires slot.Some? ==> if key in t then slot.value.lease == t[key].lease else slot.value.lease !in Leases(t)
    ensures TableOk(c, PutSlot(t, key, slot))
  {
    var u := PutSlot(t, key, slot);
    forall k | k in u ensures RegistrationOk(c, k, u[k]) { if k != key { assert RegistrationOk(c, k, t[k]); } }
    forall k, l | SharesLease(u, k, l) ensures k == l {
      if key in t || (k != key && l != key) { assert SharesLease(t, k, l); }
      else { assert forall m :: m in t ==> t[m].lease in Leases(t); }
    }
  }

  /** Every call keeps the table sound. */
  lemma AnswerOk(c: ShardConfig, t: Table, call: Call)
    requires c.directory.shards != [] && TableOk(c, t) && CallOk(t, call)
    ensures TableOk(c, Answer(c, t, call).0)
  {
    if Refusal(c, call).None? {
      var live, key := Live(t, call.now), call.request.key;
      LiveOk(c, t, call.now);
      if key in live { assert RegistrationOk(c, key, live[key]); }
      SlotOk(c, call.request, SlotOf(live, key), call.now, call.draw);
      PutSlotOk(c, live, key, OnSlot(c, call.request, SlotOf(live, key), call.now, call.draw).slot);
    }
  }

  /** What an answer tells its caller holds of the table afterwards. */
  lemma AnswersAreTrue(c: ShardConfig, t: Table, call: Call)
    requires c.directory.shards != [] && c.leaseTtl > 0
    ensures var (after, reply) := Answer(c, t, call);
            var key := call.request.key;
            match reply
            case Acked(ack) =>
              && key in after && after[key].lease == ack.lease && after[key].revision == ack.acceptedRevision
              && after[key].deadline == call.now + ack.expiresIn && ack.expiresIn > 0
              && (call.request.Update? ==>
                    after[key].revision == Some(call.request.revision) && after[key].bindings == call.request.snapshot)
              && (call.request.KeepAlive? ==> ack.lease == call.request.lease && ack.expiresIn == c.leaseTtl)
            case Deregistered => call.request.Deregister? && key !in after
            case Refused(_) => forall k :: k in after ==> k in t && after[k] == t[k]
  {
  }

  /** A call touches its own key only; other registrations stay unless their lease has run out. */
  lemma OthersUntouched(c: ShardConfig, t: Table, call: Call, k: RegistrationKey)
    requires c.directory.shards != [] && k in t && k != call.request.key
    ensures var after := Answer(c, t, call).0;
            if k in after then after[k] == t[k] else t[k].deadline <= call.now
    ensures call.gateway != call.request.key.gatewayId ==> Answer(c, t, call) == (t, Refused(PermissionDenied))
  {
  }

  // ----------------------------------------------------------- flat bindings

  /** The only key under which this shard can hold a binding of identity `i`. */
  function KeyOf(c: ShardConfig, i: BindingIdentity): RegistrationKey {
    RegistrationKey(i.gatewayId, i.relaySessionId, c.shardId)
  }

  /** The binding of identity `i`, if the table holds one. */
  function BindingAt(c: ShardConfig, t: Table, i: BindingIdentity): Option<BindingProjection> {
    if KeyOf(c, i) in t && i in t[KeyOf(c, i)].bindings then Some(t[KeyOf(c, i)].bindings[i]) else None
  }

  /** Each binding sits in exactly one registration: asking by identity loses nothing. */
  lemma OneHolder(c: ShardConfig, t: Table, k: RegistrationKey, i: BindingIdentity)
    requires c.directory.shards != [] && TableOk(c, t) && k in t && i in t[k].bindings
    ensures k == KeyOf(c, i) && BindingAt(c, t, i) == Some(t[k].bindings[i])
  {
    assert RegistrationOk(c, k, t[k]);
  }

  /** What RESOLVE must return: the unexpired bindings of the Destination, all of them and nothing else. */
  ghost predicate Resolves(c: ShardConfig, t: Table, now: Instant, d: Destination, b: Bindings) {
    forall i ::
      var held := BindingAt(c, Live(t, now), i);
      if i in b then held == Some(b[i]) && b[i].destination == d
      else held.Some? ==> held.value.destination != d
  }

  // ------------------------------------------------------------- lease times

  /** The call gave `key` a lease of full length: it registered the key anew, or kept its lease alive. */
  predicate Grants(c: ShardConfig, t: Table, call: Call, key: RegistrationKey)
    requires c.directory.shards != []
  {
    && Refusal(c, call).None? && call.request.key == key && Answer(c, t, call).1.Acked?
    && (call.request.KeepAlive? || (call.request.Register? && key !in Live(t, call.now)))
  }

  /** A registration after a call was there before with the same lease and deadline, unless the call granted it one. */
  lemma OnlyGrantsExtend(c: ShardConfig, t: Table, call: Call, k: RegistrationKey)
    requires c.directory.shards != [] && k in Answer(c, t, call).0
    ensures var r := Answer(c, t, call).0[k];
            if Grants(c, t, call, k) then r.deadline == call.now + c.leaseTtl
            else k in t && r.lease == t[k].lease && r.deadline == t[k].deadline
  {
  }

  /** A call of one of the four requests, or a sweep of expired leases, as RESOLVE and the expiry timer make. */
  datatype Step = Ask(call: Call) | Sweep(now: Instant)

  function Next(c: ShardConfig, t: Table, x: Step): Table
    requires c.directory.shards != []
  {
    match x
    case Ask(call) => Answer(c, t, call).0
    case Sweep(now) => Live(t, now)
  }

  /** The table after a list of steps, starting empty. */
  function After(c: ShardConfig, steps: seq<Step>): Table
    requires c.directory.shards != []
  {
    if steps == [] then map[] else Next(c, After(c, steps[..|steps| - 1]), steps[|steps| - 1])
  }

  ghost predicate GrantedAt(c: ShardConfig, steps: seq<Step>, k: RegistrationKey, j: nat)
    requires c.directory.shards != []
  {
    j < |steps| && steps[j].Ask? && Grants(c, After(c, steps[..j]), steps[j].call, k)
  }

  lemma OnlyGrantedSteps(c: ShardConfig, t: Table, x: Step, k: RegistrationKey)
    requires c.directory.shards != [] && k in Next(c, t, x)
    ensures var r := Next(c, t, x)[k];
            if x.Ask? && Grants(c, t, x.call, k) then r.deadline == x.call.now + c.leaseTtl
            else k in t && r.lease == t[k].lease && r.deadline == t[k].deadline
  {
    if x.Ask? { OnlyGrantsExtend(c, t, x.call, k); }
  }

  /** Every deadline in a reachable table is one full lease past a grant, and no later grant moved it. */
  lemma {:induction false} DeadlineFromGrant(c: ShardConfig, steps: seq<Step>, k: RegistrationKey) returns (j: nat)
    requires c.directory.shards != [] && k in After(c, steps)
    ensures GrantedAt(c, steps, k, j) && After(c, steps)[k].deadline == steps[j].call.now + c.leaseTtl
    ensures forall m: nat :: j < m < |steps| ==> !GrantedAt(c, steps, k, m)
  {
    var n := |steps| - 1;
    var init := steps[..n];
    OnlyGrantedSteps(c, After(c, init), steps[n], k);
    if GrantedAt(c, steps, k, n) {
      j := n;
    } else {
      j := DeadlineFromGrant(c, init, k);
      assert init[..j] == steps[..j];
      forall m: nat | j < m < |steps| ensures !GrantedAt(c, steps, k, m) {
        if m < n {
          assert init[..m] == steps[..m];
          assert !GrantedAt(c, init, k, m);
        }
      }
    }
  }

  /** A binding RESOLVE returns belongs to a registration granted a lease less than one lease length ago. */
  lemma ResolvedBindingsAreRecent(c: ShardConfig, steps: seq<Step>, now: Instant, d: Destination, b: Bindings,
                                  i: BindingIdentity)
    requires c.directory.shards != [] && Resolves(c, After(c, steps), now, d, b) && i in b
    ensures exists j: nat :: GrantedAt(c, steps, KeyOf(c, i), j) && now < steps[j].call.now + c.leaseTtl
  {
    var k := KeyOf(c, i);
    assert k in Live(After(c, steps), now);
    var j := DeadlineFromGrant(c, steps, k);
    assert GrantedAt(c, steps, k, j);
  }

  ghost predicate StepOk(t: Table, x: Step) { x.Ask? ==> CallOk(t, x.call) }

  /** Reachable tables are sound, whoever calls. */
  lemma {:induction false} ReachableOk(c: ShardConfig, steps: seq<Step>)
    requires c.directory.shards != []
    requires forall n :: 0 <= n < |steps| ==> StepOk(After(c, steps[..n]), steps[n])
    ensures TableOk(c, After(c, steps))
  {
    if steps != [] {
      var n := |steps| - 1;
      var init := steps[..n];
      forall m | 0 <= m < |init| ensures StepOk(After(c, init[..m]), init[m]) {
        assert init[..m] == steps[..m];
        assert StepOk(After(c, steps[..m]), steps[m]);
      }
      ReachableOk(c, init);
      assert StepOk(After(c, steps[..n]), steps[n]);
      match steps[n]
      case Ask(call) => AnswerOk(c, After(c, init), call);
      case Sweep(now) => LiveOk(c, After(c, init), now);
    }
  }
}
