/**
 A registration in the hands of its worker. The ghost `system` follows it through
 the protocol, shard and network included, so that what holds in every run of the
 protocol holds of the object.
 */
module RegistrationWorker {
  import opened Common
  import opened RouteModel
  import RT = RouteTable
  import opened Registration
  import opened RegistrationProtocol
  import opened RegistrationObject

  class WorkerRegistration {
    const state: RegistrationState
    ghost const config: RT.ShardConfig
    ghost const key: RegistrationKey
    ghost var system: System

    /** The object is the client of a system that keeps the protocol's invariant. */
    ghost predicate Valid()
      reads this, state
    {
      Inv(system) && system.client == state.Value()
    }

    constructor (pacing: Pacing, version: nat, snapshot: Option<Bindings>, now: Instant,
                 ghost config: RT.ShardConfig, ghost key: RegistrationKey)
      ensures Valid() && fresh(state) && system == Start(pacing, version, snapshot, now)
    {
      state := new RegistrationState(pacing, version, snapshot, now);
      this.config, this.key, system := config, key, Start(pacing, version, snapshot, now);
    }

    /** The system takes a step. */
    ghost method Record(x: Step)
      requires Inv(system) && Possible(system, x)
      modifies this`system
      ensures Inv(system) && system == RegistrationProtocol.Next(config, key, old(system), x)
    {
      NextInv(config, key, system, x);
      system := RegistrationProtocol.Next(config, key, system, x);
    }

    /** The shard handles a copy of a request, or forgets the registration. */
    ghost method Elsewhere(x: Step)
      requires Valid() && (x.Deliver? || x.Expire?) && Possible(system, x)
      modifies this`system
      ensures Valid() && system == RegistrationProtocol.Next(config, key, old(system), x)
    {
      Record(x);
    }

    /** Synced means that a shard still holding the lease has exactly this revision and these bindings. */
    method IsSynced() returns (synced: bool)
      requires Valid()
      ensures synced == state.Value().IsSynced()
      ensures synced && system.slot.Some? && state.lease.Some? && system.slot.value.lease == state.lease.value.id ==>
                && system.slot.value.revision == state.lease.value.revision
                && state.snapshot == Some(system.slot.value.bindings)
    {
      synced := state.Value().IsSynced();
      SyncedSame(system);
    }

    method Publish(version: nat, snapshot: Option<Bindings>, now: Instant)
      requires Valid()
      modifies this`system, state
      ensures Valid()
      ensures system == RegistrationProtocol.Next(config, key, old(system), Step.Publish(version, snapshot, now))
    {
      state.Publish(version, snapshot, now);
      Record(Step.Publish(version, snapshot, now));
    }

    /** A ticket that is started has never been used before. */
    method BeginNext(now: Instant) returns (r: Begun)
      requires Valid()
      modifies this`system, state
      ensures Valid() && system == RegistrationProtocol.Next(config, key, old(system), Begin(now))
      ensures r.Started? ==> r.ticket !in old(system).sent && r.ticket in system.sent
    {
      r := state.BeginNext(now);
      if r.Started? { FreshTicket(system, now); }
      Record(Begin(now));
    }

    method ConnectionLost(now: Instant)
      requires Valid()
      modifies this`system, state
      ensures Valid() && system == RegistrationProtocol.Next(config, key, old(system), LoseConnection(now))
    {
      state.ConnectionLost(now);
      Record(LoseConnection(now));
    }

    /** A completion of the current connection goes to its handler; any other counts as a passing failure. */
    method Complete(t: Ticket, done: Completion, current: bool, now: Instant)
      requires Valid() && (done.Acknowledged? ==> Answered(t, done.ack) in system.answers)
      modifies this`system, state
      ensures Valid()
      ensures system == RegistrationProtocol.Next(config, key, old(system),
                          if current then CompletionStep(old(state.Value()), t, done, now) else FailTransient(t, now))
    {
      ghost var x := if current then CompletionStep(state.Value(), t, done, now) else FailTransient(t, now);
      if !current {
        state.TransientFailure(t, now);
      } else if t.action.DoDeregister? {
        CompleteDeregister(t, done, now);
      } else {
        CompleteRegistration(t, done, now);
      }
      Record(x);
    }

    method CompleteDeregister(t: Ticket, done: Completion, now: Instant)
      requires t.action.DoDeregister? && system.client == state.Value()
      requires Possible(system, CompletionStep(state.Value(), t, done, now))
      modifies state
      ensures state.Value() ==
              RegistrationProtocol.Next(config, key, system, CompletionStep(old(state.Value()), t, done, now)).client
    {
      match done
      case DeregisterDone => state.FinishDeregister(t);
      case FailedWith(failure) =>
        if failure.Retryable? && !LeaseExpired(state.Value(), now) { state.TransientFailure(t, now); }
        else { state.FinishDeregister(t); }
      case Acknowledged(_) => state.MarkTerminal();
    }

    method CompleteRegistration(t: Ticket, done: Completion, now: Instant)
      requires !t.action.DoDeregister? && system.client == state.Value()
      requires Possible(system, CompletionStep(state.Value(), t, done, now))
      modifies state
      ensures state.Value() ==
              RegistrationProtocol.Next(config, key, system, CompletionStep(old(state.Value()), t, done, now)).client
    {
      match done
      case Acknowledged(ack) =>
        match t.action {
          case DoRegister => state.RegisterSucceeded(t, ack, now);
          case DoUpdate(_, _, _) => state.UpdateSucceeded(t, ack, now);
          case DoKeepAlive(_) => state.KeepAliveSucceeded(t, ack, now);
        }
      case FailedWith(failure) =>
        match failure {
          case Precondition => state.PreconditionFailed(t, now);
          case Rejected => state.TerminalFailure(t);
          case _ => state.TransientFailure(t, now);
        }
      case DeregisterDone => state.MarkTerminal();
    }
  }
}
