/**
 How fast a registration catches up with a shard that answers: at most four
 exchanges, and sometimes no fewer, from every settled state but one kind, which
 cannot catch up at all.
 */
module RegistrationConvergence {
  import opened Common
  import opened RouteModel
  import RT = RouteTable
  import opened Registration
  import opened RegistrationProtocol

  datatype World = World(client: Client, slot: Option<RT.Registration>)

  /** One exchange happens at a moment of each side's own clock. */
  datatype Tick = Tick(clientNow: Instant, shardNow: Instant, draw: Uuid)

  /** What a handler step makes of the client. */
  function Handled(d: Client, x: Step): Client {
    match x
    case Succeed(answer, now) => Succeeded(d, answer, now)
    case FailPrecondition(ticket, now) => PreconditionFailed(d, ticket, now)
    case FailTransient(ticket, now) => TransientFailure(d, ticket, now)
    case FailTerminal(ticket) => TerminalFailure(d, ticket)
    case EndDeregister(ticket) => FinishDeregister(d, ticket)
    case TurnTerminal => MarkTerminal(d)
    case _ => d
  }

  /** The client begins an operation, the shard handles it, the client takes the answer. */
  function Exchange(c: RT.ShardConfig, key: RegistrationKey, w: World, k: Tick): World {
    var (d, begun) := BeginNext(w.client, k.clientNow);
    if !begun.Started? then World(d, w.slot)
    else
      var out := RT.OnSlot(c, ToRequest(key, begun.ticket.action), Unexpired(w.slot, k.shardNow), k.shardNow, k.draw);
      World(Handled(d, CompletionStep(d, begun.ticket, CompletionOf(out.reply), k.clientNow)), out.slot)
  }

  /** Nothing outside the protocol gets in the way of this exchange. */
  predicate Smooth(c: RT.ShardConfig, w: World, k: Tick) {
    && w.client.retryAt <= k.clientNow
    && (w.slot.Some? ==> w.slot.value.deadline > k.shardNow)
    && k.shardNow + c.leaseTtl <= c.horizon
    && w.client.nextAttempt + 1 < U64_LIMIT
    && (w.client.lease.Some? ==> Rank(w.client.lease.value.revision) + 1 < U64_LIMIT)
  }

  ghost predicate SmoothRun(c: RT.ShardConfig, key: RegistrationKey, w: World, ticks: seq<Tick>)
    decreases |ticks|
  {
    ticks != [] && !w.client.IsSynced() ==>
      Smooth(c, w, ticks[0]) && SmoothRun(c, key, Exchange(c, key, w, ticks[0]), ticks[1..])
  }

  function Rounds(c: RT.ShardConfig, key: RegistrationKey, w: World, ticks: seq<Tick>, n: nat): World
    requires n <= |ticks|
    decreases n
  {
    if n == 0 then w else Rounds(c, key, Exchange(c, key, w, ticks[0]), ticks[1..], n - 1)
  }

  /** The shard would acknowledge the client's next Update. */
  predicate Agreeable(w: World) {
    && w.slot.Some? && w.client.lease.Some? && w.client.snapshot.Some?
    && w.slot.value.lease == w.client.lease.value.id
    && var next := Rank(w.client.lease.value.revision) + 1;
       match w.slot.value.revision
       case None => next == FIRST_REVISION && !Blocked(w)
       case Some(current) =>
         (next > current && !Blocked(w)) || (next == current && w.slot.value.bindings == w.client.snapshot.value)
  }

  /** What the shard holds has an identity that the client now wants with another binding. */
  predicate Blocked(w: World) {
    w.slot.Some? && w.client.snapshot.Some? && !RT.Stable(w.slot.value.bindings, w.client.snapshot.value)
  }

  /** Desired, not given up, and nothing under way. */
  predicate Settled(w: World) { w.client.pending.None? && !w.client.terminal && w.client.snapshot.Some? }

  predicate SameLeaseHeld(w: World) {
    w.slot.Some? && w.client.lease.Some? && w.slot.value.lease == w.client.lease.value.id
  }

  /** How many exchanges are still needed. */
  function Distance(w: World): nat {
    var c := w.client;
    if c.IsSynced() then 0
    else if c.lease.None? then 2
    else if !c.validateLease then (if Agreeable(w) then 1 else 3)
    else if !SameLeaseHeld(w) then 3
    else if c.syncedVersion == Some(c.version) then 1
    else if Agreeable(w) then 2
    else 4
  }

  /** The lease was confirmed and only has to be confirmed again. */
  predicate OnlyValidation(w: World) {
    w.client.validateLease && SameLeaseHeld(w) && w.client.syncedVersion == Some(w.client.version)
  }

  /** A probe is out, and the next lease-bound request is one the shard refuses. */
  predicate AboutToFail(w: World) {
    && w.client.probing && w.client.lease.Some?
    && if w.client.validateLease then !SameLeaseHeld(w) else !Agreeable(w)
  }

  predicate Doomed(w: World) { !w.client.IsSynced() && (AboutToFail(w) || (Blocked(w) && !OnlyValidation(w))) }

  /** How many exchanges a doomed registration has left. */
  function Demise(w: World): nat {
    if AboutToFail(w) then 1
    else if w.client.lease.None? then (if w.client.probing then 2 else 4)
    else if w.client.validateLease && SameLeaseHeld(w) then 4
    else 3
  }

  /** Settled, and not about to give up. */
  predicate Ready(w: World) { Settled(w) && !Doomed(w) }

  lemma RegisterExchange(c: RT.ShardConfig, key: RegistrationKey, w: World, k: Tick)
    requires Ready(w) && Smooth(c, w, k) && w.client.lease.None?
    ensures var n := Exchange(c, key, w, k); Ready(n) && Distance(n) == 1
  {
  }

  lemma KeepAliveExchange(c: RT.ShardConfig, key: RegistrationKey, w: World, k: Tick)
    requires Ready(w) && Smooth(c, w, k) && w.client.lease.Some? && w.client.validateLease
    ensures var n := Exchange(c, key, w, k); Ready(n) && Distance(n) + 1 == Distance(w)
  {
  }

  lemma UpdateExchange(c: RT.ShardConfig, key: RegistrationKey, w: World, k: Tick)
    requires Ready(w) && Smooth(c, w, k) && w.client.lease.Some? && !w.client.validateLease && !w.client.IsSynced()
    ensures var n := Exchange(c, key, w, k); Ready(n) && Distance(n) + 1 == Distance(w)
  {
  }

  lemma Progress(c: RT.ShardConfig, key: RegistrationKey, w: World, k: Tick)
    requires Ready(w) && Smooth(c, w, k) && !w.client.IsSynced()
    ensures var n := Exchange(c, key, w, k); Ready(n) && Distance(n) + 1 == Distance(w)
  {
    if w.client.lease.None? { RegisterExchange(c, key, w, k); }
    else if w.client.validateLease { KeepAliveExchange(c, key, w, k); }
    else { UpdateExchange(c, key, w, k); }
  }

  /** `Distance` is exact: the registration is Synced after that many exchanges and not before. */
  lemma {:induction false} ConvergesExactly(c: RT.ShardConfig, key: RegistrationKey, w: World, ticks: seq<Tick>)
    requires Ready(w) && Distance(w) <= |ticks| && SmoothRun(c, key, w, ticks)
    ensures Rounds(c, key, w, ticks, Distance(w)).client.IsSynced()
    ensures forall m: nat :: m < Distance(w) ==> !Rounds(c, key, w, ticks, m).client.IsSynced()
    decreases |ticks|
  {
    if !w.client.IsSynced() {
      Progress(c, key, w, ticks[0]);
      var n := Exchange(c, key, w, ticks[0]);
      ConvergesExactly(c, key, n, ticks[1..]);
      forall m: nat | m < Distance(w) ensures !Rounds(c, key, w, ticks, m).client.IsSynced() {
        if m > 0 { assert !Rounds(c, key, n, ticks[1..], m - 1).client.IsSynced(); }
      }
    }
  }

  /** One exchange of a doomed registration brings its end nearer, or is the end. */
  predicate NearerTheEnd(w: World, n: World) {
    if Demise(w) == 1 then n.client.terminal else Settled(n) && Doomed(n) && Demise(n) + 1 == Demise(w)
  }

  lemma DoomedRegister(c: RT.ShardConfig, key: RegistrationKey, w: World, k: Tick)
    requires Settled(w) && Doomed(w) && Smooth(c, w, k) && w.client.lease.None?
    ensures NearerTheEnd(w, Exchange(c, key, w, k))
  {
  }

  lemma DoomedKeepAlive(c: RT.ShardConfig, key: RegistrationKey, w: World, k: Tick)
    requires Settled(w) && Doomed(w) && Smooth(c, w, k) && w.client.lease.Some? && w.client.validateLease
    ensures NearerTheEnd(w, Exchange(c, key, w, k))
  {
  }

  lemma DoomedUpdate(c: RT.ShardConfig, key: RegistrationKey, w: World, k: Tick)
    requires Settled(w) && Doomed(w) && Smooth(c, w, k) && w.client.lease.Some? && !w.client.validateLease
    ensures NearerTheEnd(w, Exchange(c, key, w, k))
  {
  }

  lemma DoomedStep(c: RT.ShardConfig, key: RegistrationKey, w: World, k: Tick)
    requires Settled(w) && Doomed(w) && Smooth(c, w, k)
    ensures NearerTheEnd(w, Exchange(c, key, w, k))
  {
    if w.client.lease.None? { DoomedRegister(c, key, w, k); }
    else if w.client.validateLease { DoomedKeepAlive(c, key, w, k); }
    else { DoomedUpdate(c, key, w, k); }
  }

  lemma {:induction false} TerminalStays(c: RT.ShardConfig, key: RegistrationKey, w: World, ticks: seq<Tick>, n: nat)
    requires w.client.terminal && n <= |ticks|
    ensures Rounds(c, key, w, ticks, n).client.terminal
    decreases n
  {
    if n > 0 { TerminalStays(c, key, Exchange(c, key, w, ticks[0]), ticks[1..], n - 1); }
  }

  /** Not Synced, and terminal exactly from the last exchange on. */
  predicate GoesDown(w: World, n: nat, later: World) {
    !later.client.IsSynced() && (later.client.terminal <==> n >= Demise(w))
  }

  lemma DoomedNow(c: RT.ShardConfig, key: RegistrationKey, w: World, ticks: seq<Tick>, n: nat)
    requires Settled(w) && Doomed(w) && Demise(w) == 1 && 0 < n <= |ticks| && Smooth(c, w, ticks[0])
    ensures GoesDown(w, n, Rounds(c, key, w, ticks, n))
  {
    DoomedStep(c, key, w, ticks[0]);
    TerminalStays(c, key, Exchange(c, key, w, ticks[0]), ticks[1..], n - 1);
  }

  lemma DoomedLater(c: RT.ShardConfig, key: RegistrationKey, w: World, ticks: seq<Tick>, n: nat)
    returns (next: World)
    requires Settled(w) && Doomed(w) && Demise(w) > 1 && SmoothRun(c, key, w, ticks) && 0 < n <= |ticks|
    ensures Settled(next) && Doomed(next) && SmoothRun(c, key, next, ticks[1..])
    ensures GoesDown(next, n - 1, Rounds(c, key, next, ticks[1..], n - 1)) ==>
              GoesDown(w, n, Rounds(c, key, w, ticks, n))
  {
    next := Exchange(c, key, w, ticks[0]);
    DoomedStep(c, key, w, ticks[0]);
  }

  /** `Demise` is exact: a doomed registration is never Synced, and terminal from that exchange on. */
  lemma {:induction false} DoomedExactly(c: RT.ShardConfig, key: RegistrationKey, w: World, ticks: seq<Tick>, n: nat)
    requires Settled(w) && Doomed(w) && SmoothRun(c, key, w, ticks) && n <= |ticks|
    ensures GoesDown(w, n, Rounds(c, key, w, ticks, n))
    decreases |ticks|
  {
    if n > 0 {
      if Demise(w) == 1 {
        DoomedNow(c, key, w, ticks, n);
      } else {
        var next := DoomedLater(c, key, w, ticks, n);
        DoomedExactly(c, key, next, ticks[1..], n - 1);
      }
    }
  }

  /** The registration becomes Synced after exactly `n` exchanges. */
  predicate SyncedFirstAfter(c: RT.ShardConfig, key: RegistrationKey, w: World, ticks: seq<Tick>, n: nat)
    requires n <= |ticks|
  {
    && Rounds(c, key, w, ticks, n).client.IsSynced()
    && forall m: nat :: m < n ==> !Rounds(c, key, w, ticks, m).client.IsSynced()
  }

  /**
   From every desired, non-terminal registration with nothing pending, and any registration at the shard: four
   exchanges are enough exactly when the registration is not doomed. A doomed one has given up by then.
   */
  lemma ConvergesUnlessDoomed(c: RT.ShardConfig, key: RegistrationKey, w: World, ticks: seq<Tick>)
    requires Settled(w) && |ticks| >= 4 && SmoothRun(c, key, w, ticks)
    ensures !Doomed(w) <==> exists n: nat :: n <= 4 && SyncedFirstAfter(c, key, w, ticks, n)
    ensures Doomed(w) ==> forall n: nat :: n <= |ticks| ==> !Rounds(c, key, w, ticks, n).client.IsSynced()
    ensures Doomed(w) ==> Rounds(c, key, w, ticks, 4).client.terminal
  {
    if Doomed(w) {
      forall n: nat | n <= |ticks|
        ensures !Rounds(c, key, w, ticks, n).client.IsSynced()
      {
        DoomedExactly(c, key, w, ticks, n);
      }
      DoomedExactly(c, key, w, ticks, 4);
    } else {
      ConvergesExactly(c, key, w, ticks);
      assert SyncedFirstAfter(c, key, w, ticks, Distance(w));
    }
  }

  /** An unwanted registration is gone, at both ends, after one exchange. */
  lemma DeregistersInOne(c: RT.ShardConfig, key: RegistrationKey, w: World, k: Tick)
    requires w.client.pending.None? && !w.client.terminal && w.client.snapshot.None? && w.client.lease.Some?
    requires Smooth(c, w, k)
    ensures var n := Exchange(c, key, w, k);
            n.client.Removable() && (n.slot.Some? ==> n.slot.value.lease != w.client.lease.value.id)
  {
  }

  // ------------------------------------------- exchanges as steps of a system

  /** The three steps of an exchange: the request goes out, one copy arrives, the answer comes back. */
  function StepsOf(c: RT.ShardConfig, key: RegistrationKey, s: System, k: Tick): seq<Step> {
    var (d, begun) := BeginNext(s.client, k.clientNow);
    if !begun.Started? then [Begin(k.clientNow)]
    else
      var out := RT.OnSlot(c, ToRequest(key, begun.ticket.action), Unexpired(s.slot, k.shardNow), k.shardNow, k.draw);
      [Begin(k.clientNow), Deliver(begun.ticket, k.shardNow, k.draw),
       CompletionStep(d, begun.ticket, CompletionOf(out.reply), k.clientNow)]
  }

  lemma ThreeSteps(c: RT.ShardConfig, key: RegistrationKey, s: System, x: Step, y: Step, z: Step)
    requires Possible(s, x) && Possible(RegistrationProtocol.Next(c, key, s, x), y)
    requires Possible(RegistrationProtocol.Next(c, key, RegistrationProtocol.Next(c, key, s, x), y), z)
    ensures Run(c, key, s, [x, y, z])
    ensures After(c, key, s, [x, y, z]) == RegistrationProtocol.Next(c, key,
              RegistrationProtocol.Next(c, key, RegistrationProtocol.Next(c, key, s, x), y), z)
  {
    assert [x, y, z][1..] == [y, z] && [y, z][1..] == [z] && [z][1..] == [];
    var s1 := RegistrationProtocol.Next(c, key, s, x);
    var s2 := RegistrationProtocol.Next(c, key, s1, y);
    assert Run(c, key, s2, [z]) && After(c, key, s2, [z]) == RegistrationProtocol.Next(c, key, s2, z);
    assert Run(c, key, s1, [y, z]) && After(c, key, s1, [y, z]) == After(c, key, s2, [z]);
  }

  /** An exchange is a run of the protocol, so whatever holds in every run holds after it. */
  lemma ExchangeIsRun(c: RT.ShardConfig, key: RegistrationKey, s: System, k: Tick)
    requires k.draw !in s.used
    ensures Run(c, key, s, StepsOf(c, key, s, k))
    ensures var n := After(c, key, s, StepsOf(c, key, s, k));
            World(n.client, n.slot) == Exchange(c, key, World(s.client, s.slot), k)
  {
    var (d, begun) := BeginNext(s.client, k.clientNow);
    var steps := StepsOf(c, key, s, k);
    if begun.Started? {
      ThreeSteps(c, key, s, steps[0], steps[1], steps[2]);
      assert steps == [steps[0], steps[1], steps[2]];
    } else {
      assert steps[1..] == [];
    }
  }

  /** An exchange that ends in Synced leaves the client's own lease at the shard. */
  lemma SyncedHolds(c: RT.ShardConfig, key: RegistrationKey, w: World, k: Tick)
    requires Ready(w) && Smooth(c, w, k) && !w.client.IsSynced() && Exchange(c, key, w, k).client.IsSynced()
    ensures SameLeaseHeld(Exchange(c, key, w, k))
  {
    if w.client.lease.None? { RegisterExchange(c, key, w, k); }
  }

  /** In a reachable system the exchange that ends in Synced has put exactly the desired bindings at the shard. */
  lemma SyncedDelivers(c: RT.ShardConfig, key: RegistrationKey, s: System, k: Tick)
    requires Inv(s) && k.draw !in s.used && Ready(World(s.client, s.slot)) && Smooth(c, World(s.client, s.slot), k)
    requires !s.client.IsSynced() && Exchange(c, key, World(s.client, s.slot), k).client.IsSynced()
    ensures var n := Exchange(c, key, World(s.client, s.slot), k);
            n.slot.Some? && n.client.snapshot == Some(n.slot.value.bindings)
  {
    ExchangeIsRun(c, key, s, k);
    RunInv(c, key, s, StepsOf(c, key, s, k));
    SyncedHolds(c, key, World(s.client, s.slot), k);
    SyncedSame(After(c, key, s, StepsOf(c, key, s, k)));
  }

  // -------------------------------------------------------- the worst case

  lemma {:induction false} RunOn(c: RT.ShardConfig, key: RegistrationKey, s: System, steps: seq<Step>, x: Step)
    requires Run(c, key, s, steps) && Possible(After(c, key, s, steps), x)
    ensures Run(c, key, s, steps + [x])
    ensures After(c, key, s, steps + [x]) == RegistrationProtocol.Next(c, key, After(c, key, s, steps), x)
    decreases |steps|
  {
    var longer := steps + [x];
    if steps == [] {
      assert longer[0] == x && longer[1..] == [];
    } else {
      assert longer[0] == steps[0] && longer[1..] == steps[1..] + [x];
      RunOn(c, key, RegistrationProtocol.Next(c, key, s, steps[0]), steps[1..], x);
    }
  }

  /** A registration that has just obtained lease 0 and has nothing under way. */
  ghost predicate JustLeased(c: RT.ShardConfig, s: System, a: Bindings) {
    && s.client.snapshot == Some(a) && s.client.version == 1 && s.client.syncedVersion.None?
    && s.client.lease.Some? && s.client.lease.value.id == 0 && s.client.lease.value.revision.None?
    && s.client.pending.None? && s.client.nextAttempt == 2 && s.client.retryAt == 0
    && !s.client.terminal && !s.client.probing && !s.client.validateLease
    && s.slot == Some(RT.Registration(0, None, c.leaseTtl, map[])) && 1 !in s.used
  }

  lemma ReachLease(c: RT.ShardConfig, key: RegistrationKey, p: Pacing, a: Bindings) returns (steps: seq<Step>)
    requires 0 < c.leaseTtl <= c.horizon
    ensures Run(c, key, Start(p, 1, Some(a), 0), steps)
    ensures JustLeased(c, After(c, key, Start(p, 1, Some(a), 0), steps), a)
  {
    var s := Start(p, 1, Some(a), 0);
    var register := Ticket(1, 1, DoRegister);
    RunOn(c, key, s, [], Begin(0));
    RunOn(c, key, s, [Begin(0)], Deliver(register, 0, 0));
    var answer := Answered(register, RegistrationAck(0, None, c.leaseTtl));
    RunOn(c, key, s, [Begin(0)] + [Deliver(register, 0, 0)], Succeed(answer, 0));
    steps := [Begin(0)] + [Deliver(register, 0, 0)] + [Succeed(answer, 0)];
  }

  /** The first Update has been accepted, but the client has not heard. */
  ghost predicate AnswerLost(c: RT.ShardConfig, s: System, a: Bindings) {
    && s.client.version == 1 && s.client.snapshot == Some(a) && s.client.pending.None?
    && s.client.lease.Some? && s.client.lease.value.id == 0 && s.client.lease.value.revision.None?
    && s.client.syncedVersion.None? && !s.client.terminal && !s.client.probing
    && s.client.nextAttempt == 3
    && s.slot == Some(RT.Registration(0, Some(1), c.leaseTtl, a))
  }

  lemma ReachLostAnswer(c: RT.ShardConfig, key: RegistrationKey, s: System, before: seq<Step>, a: Bindings)
    returns (steps: seq<Step>)
    requires Run(c, key, s, before) && JustLeased(c, After(c, key, s, before), a) && c.leaseTtl > 0
    ensures Run(c, key, s, steps) && AnswerLost(c, After(c, key, s, steps), a)
  {
    var update := Ticket(2, 1, DoUpdate(0, FIRST_REVISION, a));
    RunOn(c, key, s, before, Begin(0));
    RunOn(c, key, s, before + [Begin(0)], Deliver(update, 0, 1));
    RunOn(c, key, s, before + [Begin(0)] + [Deliver(update, 0, 1)], FailTransient(update, 0));
    steps := before + [Begin(0)] + [Deliver(update, 0, 1)] + [FailTransient(update, 0)];
  }

  /** The same after the snapshot changed to `b` and the connection broke. */
  ghost predicate WorstCase(c: RT.ShardConfig, w: World, a: Bindings, b: Bindings) {
    && w.client.version == 2 && w.client.snapshot == Some(b) && w.client.pending.None?
    && w.client.lease.Some? && w.client.lease.value.id == 0 && w.client.lease.value.revision.None?
    && w.client.syncedVersion.None? && !w.client.terminal && !w.client.probing && w.client.validateLease
    && w.client.nextAttempt == 3 && w.client.retryAt == 0
    && w.slot == Some(RT.Registration(0, Some(1), c.leaseTtl, a))
  }

  const NOW := Tick(0, 0, 0)

  lemma SmoothThen(c: RT.ShardConfig, key: RegistrationKey, w: World, k: Tick, rest: seq<Tick>)
    requires Smooth(c, w, k) && SmoothRun(c, key, Exchange(c, key, w, k), rest)
    ensures SmoothRun(c, key, w, [k] + rest)
  {
    assert ([k] + rest)[1..] == rest;
  }

  /** KeepAlive and a conflicting Update leave a Register probe to be sent. */
  lemma TwoExchanges(c: RT.ShardConfig, key: RegistrationKey, w: World, a: Bindings, b: Bindings)
    requires a != b && 0 < c.leaseTtl <= c.horizon && WorstCase(c, w, a, b)
    ensures Smooth(c, w, NOW) && Smooth(c, Exchange(c, key, w, NOW), NOW)
    ensures var v := Exchange(c, key, Exchange(c, key, w, NOW), NOW);
            && v.client.lease.None? && v.client.snapshot == Some(b) && v.client.pending.None? && !v.client.terminal
            && v.client.nextAttempt == 5 && v.client.retryAt == 0
            && v.slot == Some(RT.Registration(0, Some(1), c.leaseTtl, a))
  {
  }

  /** All four exchanges, at one moment. */
  lemma FourExchanges(c: RT.ShardConfig, key: RegistrationKey, w: World, a: Bindings, b: Bindings)
    requires a != b && 0 < c.leaseTtl <= c.horizon && WorstCase(c, w, a, b)
    ensures SmoothRun(c, key, w, [NOW, NOW, NOW, NOW])
  {
    TwoExchanges(c, key, w, a, b);
    var w1 := Exchange(c, key, w, NOW);
    var w2 := Exchange(c, key, w1, NOW);
    var w3 := Exchange(c, key, w2, NOW);
    SmoothThen(c, key, w3, NOW, []);
    SmoothThen(c, key, w2, NOW, [NOW]);
    SmoothThen(c, key, w1, NOW, [NOW, NOW]);
    SmoothThen(c, key, w, NOW, [NOW, NOW, NOW]);
  }

  /**
   The worst case is reachable: an Update is accepted and its answer is lost, the
   snapshot changes, the connection breaks. Then a smooth run exists, and it is
   Synced after its fourth exchange and not before.
   */
  lemma WorstCaseReachable(c: RT.ShardConfig, key: RegistrationKey, p: Pacing, a: Bindings, b: Bindings)
    returns (steps: seq<Step>)
    requires a != b && RT.Stable(a, b) && 0 < c.leaseTtl <= c.horizon
    ensures Run(c, key, Start(p, 1, Some(a), 0), steps)
    ensures var s := After(c, key, Start(p, 1, Some(a), 0), steps);
            var w := World(s.client, s.slot);
            && Ready(w) && SmoothRun(c, key, w, [NOW, NOW, NOW, NOW])
            && SyncedFirstAfter(c, key, w, [NOW, NOW, NOW, NOW], 4)
  {
    var s := Start(p, 1, Some(a), 0);
    steps := ReachLease(c, key, p, a);
    steps := ReachLostAnswer(c, key, s, steps, a);
    RunOn(c, key, s, steps, Publish(2, Some(b), 0));
    RunOn(c, key, s, steps + [Publish(2, Some(b), 0)], LoseConnection(0));
    steps := steps + [Publish(2, Some(b), 0)] + [LoseConnection(0)];
    var last := After(c, key, s, steps);
    var w := World(last.client, last.slot);
    FourExchanges(c, key, w, a, b);
    assert Distance(w) == 4;
    ConvergesExactly(c, key, w, [NOW, NOW, NOW, NOW]);
  }

  /** The shard has forgotten the registration and the client has noticed: a Register probe comes next. */
  ghost predicate Probing(s: System, a: Bindings) {
    && s.client.snapshot == Some(a) && s.client.version == 1 && s.client.syncedVersion.None?
    && s.client.pending.None? && s.client.lease.None?
    && !s.client.terminal && s.client.probing && !s.client.validateLease
    && s.client.retryAt == 0 && s.client.nextAttempt == 3 && s.slot.None? && 1 !in s.used
  }

  lemma ReachProbing(c: RT.ShardConfig, key: RegistrationKey, s: System, before: seq<Step>, a: Bindings)
    returns (steps: seq<Step>)
    requires Run(c, key, s, before) && JustLeased(c, After(c, key, s, before), a)
    ensures Run(c, key, s, steps) && Probing(After(c, key, s, steps), a)
  {
    var update := Ticket(2, 1, DoUpdate(0, FIRST_REVISION, a));
    RunOn(c, key, s, before, Expire);
    RunOn(c, key, s, before + [Expire], Begin(0));
    RunOn(c, key, s, before + [Expire] + [Begin(0)], FailPrecondition(update, 0));
    steps := before + [Expire] + [Begin(0)] + [FailPrecondition(update, 0)];
  }

  /** The probe has just obtained lease 1. */
  ghost predicate Probed(s: System, a: Bindings) {
    && s.client.snapshot == Some(a) && s.client.syncedVersion.None? && s.client.pending.None?
    && s.client.lease.Some? && s.client.lease.value.id == 1 && s.client.lease.value.revision.None?
    && !s.client.terminal && s.client.probing && !s.client.validateLease
    && s.client.retryAt == 0 && s.client.nextAttempt == 4
  }

  lemma ReachProbed(c: RT.ShardConfig, key: RegistrationKey, s: System, before: seq<Step>, a: Bindings)
    returns (steps: seq<Step>)
    requires Run(c, key, s, before) && Probing(After(c, key, s, before), a) && 0 < c.leaseTtl <= c.horizon
    ensures Run(c, key, s, steps) && Probed(After(c, key, s, steps), a)
  {
    var register := Ticket(3, 1, DoRegister);
    var answer := Answered(register, RegistrationAck(1, None, c.leaseTtl));
    RunOn(c, key, s, before, Begin(0));
    RunOn(c, key, s, before + [Begin(0)], Deliver(register, 0, 1));
    RunOn(c, key, s, before + [Begin(0)] + [Deliver(register, 0, 1)], Succeed(answer, 0));
    steps := before + [Begin(0)] + [Deliver(register, 0, 1)] + [Succeed(answer, 0)];
  }

  /**
   A doomed state is reachable: the shard forgets the registration, the Update fails and starts a probe, the probe
   registers anew, and the shard forgets that registration too. One more exchange, smooth as it is, ends it.
   */
  lemma DoomedReachable(c: RT.ShardConfig, key: RegistrationKey, p: Pacing, a: Bindings) returns (steps: seq<Step>)
    requires 0 < c.leaseTtl <= c.horizon
    ensures Run(c, key, Start(p, 1, Some(a), 0), steps)
    ensures var s := After(c, key, Start(p, 1, Some(a), 0), steps);
            var w := World(s.client, s.slot);
            Settled(w) && Doomed(w) && Smooth(c, w, NOW) && Exchange(c, key, w, NOW).client.terminal
  {
    var s := Start(p, 1, Some(a), 0);
    steps := ReachLease(c, key, p, a);
    steps := ReachProbing(c, key, s, steps, a);
    steps := ReachProbed(c, key, s, steps, a);
    RunOn(c, key, s, steps, Expire);
    steps := steps + [Expire];
    var last := After(c, key, s, steps);
    DoomedStep(c, key, World(last.client, last.slot), NOW);
  }
}
