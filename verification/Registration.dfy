/**
 One session's registration at one shard, seen from the Gateway: what it
 wants, what lease it holds, and what each event does to it.
 */
module Registration {
  import opened Common
  import opened RouteModel

  datatype Action =
    | DoRegister
    | DoUpdate(lease: Uuid, revision: nat, snapshot: Bindings)
    | DoKeepAlive(lease: Uuid)
    | DoDeregister(lease: Uuid)
  {
    function LeaseId(): Option<Uuid> { if DoRegister? then None else Some(lease) }
  }

  datatype Ticket = Ticket(attempt: nat, version: nat, action: Action)

  datatype Lease = Lease(id: Uuid, revision: Option<nat>, keepAliveAt: Instant, expiresAt: Instant)

  datatype Phase = Registering | Leased | Synced | Unsynced | Deregistering | Removed | Terminal

  /** Retry pacing and the last moment the clock can express. */
  datatype Pacing = Pacing(initial: nat, max: nat, horizon: nat)

  datatype Client = Client(
    pacing: Pacing,
    version: nat,
    snapshot: Option<Bindings>,
    lease: Option<Lease>,
    syncedVersion: Option<nat>,
    pending: Option<Ticket>,
    nextAttempt: nat,
    terminal: bool,
    probing: bool,
    validateLease: bool,
    retryAt: Instant,
    backoff: nat)
  {
    predicate Removable() { snapshot.None? && lease.None? && pending.None? }

    /** The canonical state this registration is in. */
    function Phase(): Phase {
      if terminal then Terminal
      else if snapshot.None? then (if Removable() then Removed else Deregistering)
      else if lease.None? then Registering
      else if !validateLease && syncedVersion == Some(version) then Synced
      else if lease.value.revision.None? then Leased
      else Unsynced
    }

    predicate IsSynced() { Phase() == Synced }

    function LeaseId(): Option<Uuid> { if lease.Some? then Some(lease.value.id) else None }
  }

  const SIXTY_SECONDS: nat := 60_000_000_000

  function LeaseExpiry(p: Pacing, now: Instant, expiresIn: nat): Instant {
    if now + expiresIn <= p.horizon then now + expiresIn else now + SIXTY_SECONDS
  }

  function NextKeepAlive(p: Pacing, now: Instant, expiresIn: nat): Instant {
    var interval := if expiresIn / 2 == 0 then 1 else expiresIn / 2;
    if now + interval <= p.horizon then now + interval else now + SIXTY_SECONDS
  }

  function NextBackoff(current: nat, max: nat): nat { if 2 * current <= max then 2 * current else max }

  function NewClient(p: Pacing, version: nat, snapshot: Option<Bindings>, now: Instant): Client {
    Client(p, version, snapshot, None, None, None, 1, false, false, false, now, p.initial)
  }

  function ResetRetry(c: Client, now: Instant): Client { c.(retryAt := now, backoff := c.pacing.initial) }

  function Published(c: Client, version: nat, snapshot: Option<Bindings>, now: Instant): Client {
    if version <= c.version then c
    else
      var same := c.snapshot == snapshot;
      var d := c.(version := version, snapshot := snapshot,
                  syncedVersion := if same && c.IsSynced() then Some(version) else None);
      var e := if c.terminal && snapshot.None? then d.(lease := None, pending := None, validateLease := false) else d;
      if same then e else ResetRetry(e, now)
  }

  datatype Begun = Idle | Started(ticket: Ticket) | Exhausted

  datatype Choice = Nothing | Do(action: Action) | NoRevisionLeft

  /** Which operation the registration needs now. */
  function NextAction(c: Client, now: Instant): Choice {
    match (c.snapshot, c.lease)
    case (None, None) => Nothing
    case (None, Some(lease)) => Do(DoDeregister(lease.id))
    case (Some(_), None) => Do(DoRegister)
    case (Some(snapshot), Some(lease)) =>
      if c.validateLease then Do(DoKeepAlive(lease.id))
      else if c.syncedVersion != Some(c.version) then
        match lease.revision
        case None => Do(DoUpdate(lease.id, FIRST_REVISION, snapshot))
        case Some(revision) =>
          if revision + 1 >= U64_LIMIT then NoRevisionLeft else Do(DoUpdate(lease.id, revision + 1, snapshot))
      else if now >= lease.keepAliveAt then Do(DoKeepAlive(lease.id))
      else Nothing
  }

  function BeginNext(c: Client, now: Instant): (Client, Begun) {
    if c.pending.Some? || c.terminal || now < c.retryAt then (c, Idle)
    else
      match NextAction(c, now)
      case Nothing => (c, Idle)
      case NoRevisionLeft => (c, Exhausted)
      case Do(action) =>
        if c.nextAttempt + 1 >= U64_LIMIT then (c, Exhausted)
        else
          var ticket := Ticket(c.nextAttempt, c.version, action);
          (c.(nextAttempt := c.nextAttempt + 1, pending := Some(ticket)), Started(ticket))
  }

  /** The pending ticket is consumed; the answer counts only under the lease it was sent for. */
  function TakePending(c: Client, t: Ticket): (Client, bool) {
    if c.pending != Some(t) then (c, false)
    else (c.(pending := None), c.LeaseId() == t.action.LeaseId())
  }

  /** ... and, for most answers, only if nothing was published since. */
  function TakeCurrent(c: Client, t: Ticket): (Client, bool) {
    var (d, ok) := TakePending(c, t);
    (d, ok && d.version == t.version)
  }

  function RegisterSucceeded(c: Client, t: Ticket, ack: RegistrationAck, now: Instant): Client {
    var (d, ok) := TakeCurrent(c, t);
    if !ok || !t.action.DoRegister? then d
    else
      var lease := Lease(ack.lease, ack.acceptedRevision, NextKeepAlive(c.pacing, now, ack.expiresIn),
                         LeaseExpiry(c.pacing, now, ack.expiresIn));
      ResetRetry(d.(lease := Some(lease), syncedVersion := None, validateLease := false), now)
  }

  function Renewed(p: Pacing, lease: Lease, ack: RegistrationAck, now: Instant): Lease {
    lease.(keepAliveAt := NextKeepAlive(p, now, ack.expiresIn), expiresAt := LeaseExpiry(p, now, ack.expiresIn))
  }

  function UpdateSucceeded(c: Client, t: Ticket, ack: RegistrationAck, now: Instant): Client {
    if !t.action.DoUpdate? then c
    else
      var (d, ok) := TakePending(c, t);
      if !ok || ack.lease != t.action.lease || d.lease.None? || d.lease.value.id != t.action.lease then d
      else
        var lease := Renewed(c.pacing, d.lease.value.(revision := Some(t.action.revision)), ack, now);
        ResetRetry(d.(lease := Some(lease),
                      syncedVersion := if d.version == t.version then Some(t.version) else d.syncedVersion,
                      probing := false, validateLease := false), now)
  }

  function KeepAliveSucceeded(c: Client, t: Ticket, ack: RegistrationAck, now: Instant): Client {
    if !t.action.DoKeepAlive? then c
    else
      var (d, ok) := TakeCurrent(c, t);
      if !ok || ack.lease != t.action.lease || d.lease.None? || d.lease.value.id != t.action.lease then d
      else ResetRetry(d.(lease := Some(Renewed(c.pacing, d.lease.value, ack, now)), probing := false,
                         validateLease := false), now)
  }

  function TerminalFailure(c: Client, t: Ticket): Client {
    var (d, ok) := TakeCurrent(c, t);
    if ok then d.(syncedVersion := None, terminal := true) else d
  }

  /** The first lease-bound precondition failure starts a REGISTER probe; the next one is final. */
  function PreconditionFailed(c: Client, t: Ticket, now: Instant): Client {
    if t.action.DoRegister? then TerminalFailure(c, t)
    else
      var (d, ok) := TakeCurrent(c, t);
      if !ok then d
      else if d.probing then d.(syncedVersion := None, terminal := true)
      else if d.LeaseId() == t.action.LeaseId() then
        ResetRetry(d.(probing := true, lease := None, syncedVersion := None, validateLease := false), now)
      else d
  }

  function TransientFailure(c: Client, t: Ticket, now: Instant): Client {
    var (d, ok) := TakeCurrent(c, t);
    if ok then d.(syncedVersion := None, retryAt := now + d.backoff, backoff := NextBackoff(d.backoff, d.pacing.max))
    else d
  }

  function ConnectionLost(c: Client, now: Instant): Client {
    ResetRetry(c.(validateLease := c.validateLease || c.lease.Some?), now)
  }

  function MarkTerminal(c: Client): Client {
    var d := c.(pending := None, syncedVersion := None, terminal := true);
    if c.snapshot.None? then d.(lease := None, validateLease := false) else d
  }

  function FinishDeregister(c: Client, t: Ticket): Client {
    var (d, ok) := TakeCurrent(c, t);
    if ok && t.action.DoDeregister? then d.(lease := None, syncedVersion := None, validateLease := false) else d
  }

  predicate LeaseExpired(c: Client, now: Instant) { c.lease.Some? ==> now >= c.lease.value.expiresAt }

  /**
   A lease is renewed after it was granted, and no later than it runs out exactly when it has any length and
   either its end is expressible or half of it is not longer than the fallback.
   */
  lemma RenewalInTime(p: Pacing, now: Instant, expiresIn: nat)
    ensures now < NextKeepAlive(p, now, expiresIn)
    ensures NextKeepAlive(p, now, expiresIn) <= LeaseExpiry(p, now, expiresIn) <==>
            if now + expiresIn <= p.horizon then expiresIn > 0
            else expiresIn / 2 <= SIXTY_SECONDS || now + expiresIn / 2 > p.horizon
  {
  }

  /** Retry delays stay between the initial and the maximal one. */
  lemma BackoffBounded(c: Client, t: Ticket, now: Instant)
    requires c.pacing.initial <= c.backoff <= c.pacing.max
    ensures c.pacing.initial <= TransientFailure(c, t, now).backoff <= c.pacing.max
    ensures TransientFailure(c, t, now).pending.Some? ==> TransientFailure(c, t, now) == c
  {
  }

  // ------------------------------------------------------ in the caller's terms

  /** A stale publish changes nothing; a newer one keeps Synced if it wants the same and ends it if not. */
  lemma PublishAndSynced(c: Client, version: nat, snapshot: Option<Bindings>, now: Instant)
    ensures version <= c.version ==> Published(c, version, snapshot, now) == c
    ensures version > c.version ==>
              && Published(c, version, snapshot, now).version == version
              && Published(c, version, snapshot, now).snapshot == snapshot
              && (Published(c, version, snapshot, now).IsSynced() <==> c.IsSynced() && snapshot == c.snapshot)
  {
  }

  /** A changed wish is acted on at once; a given-up registration that is no longer wanted can be removed. */
  lemma PublishActsAtOnce(c: Client, version: nat, snapshot: Option<Bindings>, now: Instant)
    requires version > c.version
    ensures snapshot != c.snapshot ==>
              Published(c, version, snapshot, now).retryAt == now
              && Published(c, version, snapshot, now).backoff == c.pacing.initial
    ensures c.terminal && snapshot.None? ==> Published(c, version, snapshot, now).Removable()
    ensures !(c.terminal && snapshot.None?) ==>
              Published(c, version, snapshot, now).lease == c.lease
              && Published(c, version, snapshot, now).pending == c.pending
  {
  }

  /** Nothing is under way, the registration has not given up, and the retry delay has passed. */
  predicate MayBegin(c: Client, now: Instant) { c.pending.None? && !c.terminal && now >= c.retryAt }

  /** The shard holds what is wanted, as far as the client knows, and need not be asked yet. */
  predicate AtRest(c: Client, now: Instant) {
    c.snapshot.Some? && c.lease.Some? && !c.validateLease && c.syncedVersion == Some(c.version)
    && now < c.lease.value.keepAliveAt
  }

  /** Which operation is begun, and when none is. */
  lemma BeginsExactly(c: Client, now: Instant)
    ensures var (d, begun) := BeginNext(c, now);
            && (begun.Started? ==>
                  && begun.ticket.version == c.version && begun.ticket.attempt == c.nextAttempt
                  && d == c.(nextAttempt := c.nextAttempt + 1, pending := Some(begun.ticket)))
            && (!begun.Started? ==> d == c)
            && (begun.Idle? <==> !MayBegin(c, now) || AtRest(c, now) || (c.snapshot.None? && c.lease.None?))
            && (begun.Started? ==>
                  match begun.ticket.action
                  case DoRegister => c.snapshot.Some? && c.lease.None?
                  case DoDeregister(lease) => c.snapshot.None? && c.LeaseId() == Some(lease)
                  case DoUpdate(lease, revision, snapshot) =>
                    && c.LeaseId() == Some(lease) && c.snapshot == Some(snapshot) && !c.validateLease
                    && c.syncedVersion != Some(c.version)
                    && revision == if c.lease.value.revision.Some? then c.lease.value.revision.value + 1 else 1
                  case DoKeepAlive(lease) =>
                    && c.LeaseId() == Some(lease) && c.snapshot.Some?
                    && (c.validateLease || (c.syncedVersion == Some(c.version) && now >= c.lease.value.keepAliveAt)))
  {
  }

  /** An answer counts only for the ticket under way, under the lease it was sent for, with nothing published since. */
  predicate Current(c: Client, t: Ticket) {
    c.pending == Some(t) && c.LeaseId() == t.action.LeaseId() && c.version == t.version
  }

  /** After a passing failure nothing is begun until the delay has passed, and the next delay is twice as long. */
  lemma RetryPaced(c: Client, t: Ticket, now: Instant, later: Instant)
    requires Current(c, t)
    ensures var d := TransientFailure(c, t, now);
            && d.pending.None? && d.retryAt == now + c.backoff && d.syncedVersion.None?
            && d.backoff == (if 2 * c.backoff <= c.pacing.max then 2 * c.backoff else c.pacing.max)
            && (later < now + c.backoff ==> BeginNext(d, later).1 == Idle)
            && d.lease == c.lease && d.snapshot == c.snapshot && d.terminal == c.terminal
  {
  }

  /** An answer to an older ticket changes nothing; one to the ticket under way, but out of date, only ends the wait. */
  lemma StaleAnswersAreIgnored(c: Client, t: Ticket, ack: RegistrationAck, now: Instant)
    requires !Current(c, t)
    ensures var d := if c.pending == Some(t) then c.(pending := None) else c;
            && RegisterSucceeded(c, t, ack, now) == d && TransientFailure(c, t, now) == d
            && TerminalFailure(c, t) == d && PreconditionFailed(c, t, now) == d && FinishDeregister(c, t) == d
            && (t.action.DoKeepAlive? ==> KeepAliveSucceeded(c, t, ack, now) == d)
  {
  }

  /** After a lost connection the lease is not trusted: the registration is not Synced and asks for it at once. */
  lemma LossRevalidates(c: Client, now: Instant)
    requires c.snapshot.Some? && c.lease.Some? && c.pending.None? && !c.terminal && c.nextAttempt + 1 < U64_LIMIT
    ensures !ConnectionLost(c, now).IsSynced()
    ensures BeginNext(ConnectionLost(c, now), now).1 ==
            Started(Ticket(c.nextAttempt, c.version, DoKeepAlive(c.lease.value.id)))
  {
  }

  /** The first refusal under a lease drops it and registers anew at once; a second one in a row is final. */
  lemma SecondRefusalIsFinal(c: Client, t: Ticket, now: Instant)
    requires Current(c, t) && !t.action.DoRegister? && !c.terminal && c.nextAttempt + 1 < U64_LIMIT
    ensures var d := PreconditionFailed(c, t, now);
            if c.probing then d.terminal && d.lease == c.lease
            else
              && !d.terminal && d.lease.None? && d.probing && !d.IsSynced()
              && BeginNext(d, now).1 ==
                 if c.snapshot.Some? then Started(Ticket(c.nextAttempt, c.version, DoRegister)) else Idle
  {
  }

  /** After an acknowledged UPDATE nothing is asked until half the lease has passed, and then the lease is renewed. */
  lemma QuietForHalfTheLease(c: Client, t: Ticket, ack: RegistrationAck, now: Instant, later: Instant)
    requires Current(c, t) && t.action.DoUpdate? && ack.lease == t.action.lease
    requires c.snapshot.Some? && !c.terminal && c.nextAttempt + 1 < U64_LIMIT
    requires 2 <= ack.expiresIn && now + ack.expiresIn <= c.pacing.horizon && now <= later
    ensures var d := UpdateSucceeded(c, t, ack, now);
            && d.IsSynced() && !d.probing && d.LeaseId() == Some(ack.lease)
            && d.lease.value.expiresAt == now + ack.expiresIn
            && BeginNext(d, later).1 ==
               if later < now + ack.expiresIn / 2 then Idle
               else Started(Ticket(c.nextAttempt, c.version, DoKeepAlive(ack.lease)))
  {
  }

  /** A granted lease is taken as granted, and the next operation brings the shard what is wanted. */
  lemma GrantIsTaken(c: Client, t: Ticket, ack: RegistrationAck, now: Instant)
    requires Current(c, t) && t.action.DoRegister?
    requires 2 <= ack.expiresIn && now + ack.expiresIn <= c.pacing.horizon
    ensures var d := RegisterSucceeded(c, t, ack, now);
            && d.lease == Some(Lease(ack.lease, ack.acceptedRevision, now + ack.expiresIn / 2, now + ack.expiresIn))
            && !d.IsSynced() && d.retryAt == now
            && (c.snapshot.Some? && !c.terminal && c.nextAttempt + 1 < U64_LIMIT ==>
                  var next := if ack.acceptedRevision.Some? then ack.acceptedRevision.value + 1 else 1;
                  next < U64_LIMIT ==>
                    BeginNext(d, now).1 ==
                    Started(Ticket(c.nextAttempt, c.version, DoUpdate(ack.lease, next, c.snapshot.value))))
  {
  }

  /** A renewed lease keeps its revision and runs from now; the registration is Synced if it was up to date. */
  lemma RenewalIsTaken(c: Client, t: Ticket, ack: RegistrationAck, now: Instant)
    requires Current(c, t) && t.action.DoKeepAlive? && ack.lease == t.action.lease
    requires 2 <= ack.expiresIn && now + ack.expiresIn <= c.pacing.horizon
    ensures var d := KeepAliveSucceeded(c, t, ack, now);
            && d.lease == Some(Lease(ack.lease, c.lease.value.revision, now + ack.expiresIn / 2, now + ack.expiresIn))
            && !d.probing && d.retryAt == now
            && (d.IsSynced() <==> c.snapshot.Some? && !c.terminal && c.syncedVersion == Some(c.version))
  {
  }
}
