/** The registration as the program keeps it: fields changed in place by each event. */
module RegistrationObject {
  import opened Common
  import opened RouteModel
  import opened Registration

  class RegistrationState {
    const pacing: Pacing
    var version: nat
    var snapshot: Option<Bindings>
    var lease: Option<Lease>
    var syncedVersion: Option<nat>
    var pending: Option<Ticket>
    var nextAttempt: nat
    var terminal: bool
    var probing: bool
    var validateLease: bool
    var retryAt: Instant
    var backoff: nat

    function Value(): Client
      reads this
    {
      Client(pacing, version, snapshot, lease, syncedVersion, pending, nextAttempt, terminal, probing,
             validateLease, retryAt, backoff)
    }

    constructor (pacing: Pacing, version: nat, snapshot: Option<Bindings>, now: Instant)
      ensures Value() == NewClient(pacing, version, snapshot, now)
    {
      this.pacing, this.version, this.snapshot := pacing, version, snapshot;
      lease, syncedVersion, pending, nextAttempt := None, None, None, 1;
      terminal, probing, validateLease := false, false, false;
      retryAt, backoff := now, pacing.initial;
    }

    method ResetRetry(now: Instant)
      modifies this`retryAt, this`backoff
      ensures retryAt == now && backoff == pacing.initial
    {
      retryAt, backoff := now, pacing.initial;
    }

    method Publish(version: nat, snapshot: Option<Bindings>, now: Instant)
      modifies this
      ensures Value() == Published(old(Value()), version, snapshot, now)
    {
      if version <= this.version { return; }
      var same := this.snapshot == snapshot;
      var wasSynced := Value().IsSynced();
      this.version, this.snapshot := version, snapshot;
      syncedVersion := if same && wasSynced then Some(version) else None;
      if terminal && snapshot.None? { lease, pending, validateLease := None, None, false; }
      if !same { ResetRetry(now); }
    }

    method BeginNext(now: Instant) returns (r: Begun)
      modifies this
      ensures (Value(), r) == Registration.BeginNext(old(Value()), now)
    {
      if pending.Some? || terminal || now < retryAt { return Idle; }
      var action: Action;
      if snapshot.None? {
        if lease.None? { return Idle; }
        action := DoDeregister(lease.value.id);
      } else if lease.None? {
        action := DoRegister;
      } else if validateLease {
        action := DoKeepAlive(lease.value.id);
      } else if syncedVersion != Some(version) {
        var revision := FIRST_REVISION;
        if lease.value.revision.Some? {
          if lease.value.revision.value + 1 >= U64_LIMIT { return Exhausted; }
          revision := lease.value.revision.value + 1;
        }
        action := DoUpdate(lease.value.id, revision, snapshot.value);
      } else if now >= lease.value.keepAliveAt {
        action := DoKeepAlive(lease.value.id);
      } else {
        return Idle;
      }
      if nextAttempt + 1 >= U64_LIMIT { return Exhausted; }
      var ticket := Ticket(nextAttempt, version, action);
      nextAttempt := nextAttempt + 1;
      pending := Some(ticket);
      return Started(ticket);
    }

    method TakePending(t: Ticket) returns (ok: bool)
      modifies this`pending
      ensures (Value(), ok) == Registration.TakePending(old(Value()), t)
    {
      if pending != Some(t) { return false; }
      pending := None;
      return Value().LeaseId() == t.action.LeaseId();
    }

    method TakeCurrent(t: Ticket) returns (ok: bool)
      modifies this`pending
      ensures (Value(), ok) == Registration.TakeCurrent(old(Value()), t)
    {
      ok := TakePending(t);
      ok := ok && version == t.version;
    }

    method RegisterSucceeded(t: Ticket, ack: RegistrationAck, now: Instant)
      modifies this
      ensures Value() == Registration.RegisterSucceeded(old(Value()), t, ack, now)
    {
      var ok := TakeCurrent(t);
      if !ok || !t.action.DoRegister? { return; }
      lease := Some(Lease(ack.lease, ack.acceptedRevision, NextKeepAlive(pacing, now, ack.expiresIn),
                          LeaseExpiry(pacing, now, ack.expiresIn)));
      syncedVersion, validateLease := None, false;
      ResetRetry(now);
    }

    method UpdateSucceeded(t: Ticket, ack: RegistrationAck, now: Instant)
      modifies this
      ensures Value() == Registration.UpdateSucceeded(old(Value()), t, ack, now)
    {
      if !t.action.DoUpdate? { return; }
      var ok := TakePending(t);
      if !ok || ack.lease != t.action.lease { return; }
      if lease.None? || lease.value.id != t.action.lease { return; }
      lease := Some(Lease(lease.value.id, Some(t.action.revision), NextKeepAlive(pacing, now, ack.expiresIn),
                          LeaseExpiry(pacing, now, ack.expiresIn)));
      if version == t.version { syncedVersion := Some(t.version); }
      probing, validateLease := false, false;
      ResetRetry(now);
    }

    method KeepAliveSucceeded(t: Ticket, ack: RegistrationAck, now: Instant)
      modifies this
      ensures Value() == Registration.KeepAliveSucceeded(old(Value()), t, ack, now)
    {
      if !t.action.DoKeepAlive? { return; }
      var ok := TakeCurrent(t);
      if !ok || ack.lease != t.action.lease { return; }
      if lease.Some? && lease.value.id == t.action.lease {
        lease := Some(Lease(lease.value.id, lease.value.revision, NextKeepAlive(pacing, now, ack.expiresIn),
                            LeaseExpiry(pacing, now, ack.expiresIn)));
        probing, validateLease := false, false;
        ResetRetry(now);
      }
    }

    method TerminalFailure(t: Ticket)
      modifies this
      ensures Value() == Registration.TerminalFailure(old(Value()), t)
    {
      var ok := TakeCurrent(t);
      if ok { syncedVersion, terminal := None, true; }
    }

    method PreconditionFailed(t: Ticket, now: Instant)
      modifies this
      ensures Value() == Registration.PreconditionFailed(old(Value()), t, now)
    {
      if t.action.DoRegister? { TerminalFailure(t); return; }
      var ok := TakeCurrent(t);
      if !ok { return; }
      if probing { syncedVersion, terminal := None, true; return; }
      if lease.Some? && lease.value.id == t.action.lease {
        probing, lease, syncedVersion, validateLease := true, None, None, false;
        ResetRetry(now);
      }
    }

    method TransientFailure(t: Ticket, now: Instant)
      modifies this
      ensures Value() == Registration.TransientFailure(old(Value()), t, now)
    {
      var ok := TakeCurrent(t);
      if !ok { return; }
      syncedVersion := None;
      retryAt := now + backoff;
      backoff := NextBackoff(backoff, pacing.max);
    }

    method ConnectionLost(now: Instant)
      modifies this
      ensures Value() == Registration.ConnectionLost(old(Value()), now)
    {
      if lease.Some? { validateLease := true; }
      retryAt, backoff := now, pacing.initial;
    }

    method MarkTerminal()
      modifies this
      ensures Value() == Registration.MarkTerminal(old(Value()))
    {
      pending, syncedVersion, terminal := None, None, true;
      if snapshot.None? { lease, validateLease := None, false; }
    }

    method FinishDeregister(t: Ticket)
      modifies this
      ensures Value() == Registration.FinishDeregister(old(Value()), t)
    {
      var ok := TakeCurrent(t);
      if ok && t.action.DoDeregister? { lease, syncedVersion, validateLease := None, None, false; }
    }
  }
}
