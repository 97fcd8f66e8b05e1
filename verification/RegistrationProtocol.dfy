/**
 A registration and its shard over a network that may lose, delay, duplicate
 and reorder requests, with leases that may end at any moment.
 */
module RegistrationProtocol {
  import opened Common
  import opened RouteModel
  import RT = RouteTable
  import opened Registration

  datatype Answered = Answered(ticket: Ticket, ack: RegistrationAck)

  /** One revision of one lease. */
  datatype Edition = Edition(lease: Uuid, revision: nat)

  /**
   `sent` are all requests ever handed to the network; any of them may still
   arrive, any number of times. `answers` are the acknowledgements the shard
   gave. `used`, `accepted` and `birth` only record the past: lease ids ever
   drawn, what each revision of each lease was accepted with, and the version
   the current registration object started from.
   */
  datatype System = System(
    client: Client,
    slot: Option<RT.Registration>,
    sent: set<Ticket>,
    answers: set<Answered>,
    used: set<Uuid>,
    accepted: map<Edition, Bindings>,
    birth: nat)

  function ToRequest(key: RegistrationKey, a: Action): RT.Request {
    match a
    case DoRegister => RT.Register(key)
    case DoUpdate(lease, revision, snapshot) => RT.Update(key, lease, revision, snapshot)
    case DoKeepAlive(lease) => RT.KeepAlive(key, lease)
    case DoDeregister(lease) => RT.Deregister(key, lease)
  }

  datatype Step =
    | Publish(version: nat, snapshot: Option<Bindings>, now: Instant)
    | Begin(now: Instant)
    | Deliver(ticket: Ticket, now: Instant, draw: Uuid)
    | Succeed(answer: Answered, now: Instant)
    | FailPrecondition(ticket: Ticket, now: Instant)
    | FailTransient(ticket: Ticket, now: Instant)
    | FailTerminal(ticket: Ticket)
    | LoseConnection(now: Instant)
    | TurnTerminal
    | EndDeregister(ticket: Ticket)
    | Expire                                                   // the shard forgets the registration
    | Recreate(version: nat, snapshot: Option<Bindings>, now: Instant)  // pruned, then wanted again

  predicate Possible(s: System, x: Step) {
    match x
    case Deliver(ticket, _, draw) => ticket in s.sent && draw !in s.used
    case Succeed(answer, _) => answer in s.answers
    case Recreate(version, _, _) => s.client.Removable() && version > s.client.version
    case _ => true
  }

  function Succeeded(c: Client, a: Answered, now: Instant): Client {
    match a.ticket.action
    case DoRegister => RegisterSucceeded(c, a.ticket, a.ack, now)
    case DoUpdate(_, _, _) => UpdateSucceeded(c, a.ticket, a.ack, now)
    case DoKeepAlive(_) => KeepAliveSucceeded(c, a.ticket, a.ack, now)
    case DoDeregister(_) => c
  }

  /** The slot's live content at `now`. */
  function Unexpired(slot: Option<RT.Registration>, now: Instant): Option<RT.Registration> {
    if slot.Some? && slot.value.deadline > now then slot else None
  }

  function OutcomeOf(c: RT.ShardConfig, key: RegistrationKey, s: System, t: Ticket, now: Instant,
                     draw: Uuid): RT.Outcome {
    RT.OnSlot(c, ToRequest(key, t.action), Unexpired(s.slot, now), now, draw)
  }

  /** The shard handles one copy of a request. */
  function Delivered(c: RT.ShardConfig, key: RegistrationKey, s: System, t: Ticket, now: Instant, draw: Uuid): System {
    var out := OutcomeOf(c, key, s, t, now, draw);
    s.(slot := out.slot,
       answers := if out.reply.Acked? then s.answers + {Answered(t, out.reply.ack)} else s.answers,
       used := s.used + {draw},
       accepted := if t.action.DoUpdate? && out.reply.Acked?
                   then s.accepted[Edition(t.action.lease, t.action.revision) := t.action.snapshot]
                   else s.accepted)
  }

  function Next(c: RT.ShardConfig, key: RegistrationKey, s: System, x: Step): System
    requires Possible(s, x)
  {
    match x
    case Publish(version, snapshot, now) => s.(client := Published(s.client, version, snapshot, now))
    case Begin(now) =>
      var (d, begun) := BeginNext(s.client, now);
      s.(client := d, sent := if begun.Started? then s.sent + {begun.ticket} else s.sent)
    case Deliver(ticket, now, draw) => Delivered(c, key, s, ticket, now, draw)
    case Succeed(answer, now) => s.(client := Succeeded(s.client, answer, now))
    case FailPrecondition(ticket, now) => s.(client := PreconditionFailed(s.client, ticket, now))
    case FailTransient(ticket, now) => s.(client := TransientFailure(s.client, ticket, now))
    case FailTerminal(ticket) => s.(client := TerminalFailure(s.client, ticket))
    case LoseConnection(now) => s.(client := ConnectionLost(s.client, now))
    case TurnTerminal => s.(client := MarkTerminal(s.client))
    case EndDeregister(ticket) => s.(client := FinishDeregister(s.client, ticket))
    case Expire => s.(slot := None)
    case Recreate(version, snapshot, now) =>
      s.(client := NewClient(s.client.pacing, version, snapshot, now), birth := version)
  }

  // -------------------------------------------------------------- completions

  /** Why an operation failed, as far as the worker tells failures apart. */
  datatype Failure = Precondition | Rejected | Retryable | ProtocolError

  datatype Completion = Acknowledged(ack: RegistrationAck) | DeregisterDone | FailedWith(failure: Failure)

  function FailureOf(e: RouteTableError): Failure {
    match e
    case FailedPrecondition => Precondition
    case DeadlineOverflow => Retryable
    case _ => Rejected
  }

  function CompletionOf(reply: RT.Reply): Completion {
    match reply
    case Acked(ack) => Acknowledged(ack)
    case Deregistered => DeregisterDone
    case Refused(error) => FailedWith(FailureOf(error))
  }

  /**
   Which handler a completion goes to. A Deregister that failed drops the lease, unless trying again can help; an
   answer of the wrong kind ends the registration.
   */
  function CompletionStep(c: Client, t: Ticket, done: Completion, now: Instant): Step {
    match done
    case Acknowledged(ack) => if t.action.DoDeregister? then TurnTerminal else Succeed(Answered(t, ack), now)
    case DeregisterDone => if t.action.DoDeregister? then EndDeregister(t) else TurnTerminal
    case FailedWith(failure) =>
      if t.action.DoDeregister? then
        if failure.Retryable? && !LeaseExpired(c, now) then FailTransient(t, now) else EndDeregister(t)
      else
        match failure
        case Precondition => FailPrecondition(t, now)
        case Rejected => FailTerminal(t)
        case _ => FailTransient(t, now)
  }

  /** The shard's table, watched at one key, does what this system's slot does; calls for other keys only sweep. */
  lemma OneKeyView(c: RT.ShardConfig, t: RT.Table, call: RT.Call, key: RegistrationKey)
    requires c.directory.shards != [] && RT.Refusal(c, call).None?
    ensures var (table, reply) := RT.Answer(c, t, call);
            var live := Unexpired(RT.SlotOf(t, key), call.now);
            if call.request.key == key then
              RT.Outcome(RT.SlotOf(table, key), reply) == RT.OnSlot(c, call.request, live, call.now, call.draw)
            else RT.SlotOf(table, key) == live
  {
  }

  /** At the shard, revisions of one lease only grow, none is ever written twice, and no identity changes its
      binding. */
  lemma RevisionsWriteOnce(c: RT.ShardConfig, r: RT.Request, slot: Option<RT.Registration>, now: Instant, draw: Uuid)
    requires slot.Some? && RT.OnSlot(c, r, slot, now, draw).slot.Some?
    ensures var later := RT.OnSlot(c, r, slot, now, draw).slot.value;
            && later.lease == slot.value.lease
            && Rank(later.revision) >= Rank(slot.value.revision)
            && (later.revision == slot.value.revision ==> later.bindings == slot.value.bindings)
            && RT.Stable(slot.value.bindings, later.bindings)
  {
  }

  // --------------------------------------------------------------- invariant

  function Rank(r: Option<nat>): nat { if r.Some? then r.value else 0 }

  predicate IsUpdate(t: Ticket, lease: Uuid) { t.action.DoUpdate? && t.action.lease == lease }

  /** No revision of `lease` above `top` was ever sent. */
  ghost predicate SentUpTo(sent: set<Ticket>, lease: Uuid, top: nat) {
    forall t {:trigger IsUpdate(t, lease)} :: t in sent && IsUpdate(t, lease) ==> t.action.revision <= top
  }

  /** ... nor accepted. */
  ghost predicate AcceptedUpTo(accepted: map<Edition, Bindings>, lease: Uuid, top: nat) {
    forall r: nat {:trigger Edition(lease, r)} :: Edition(lease, r) in accepted ==> r <= top
  }

  predicate Has(accepted: map<Edition, Bindings>, lease: Uuid, revision: nat, b: Bindings) {
    Edition(lease, revision) in accepted && accepted[Edition(lease, revision)] == b
  }

  /** If the shard holds this lease, its revision is at least `least`. */
  predicate ShardAtLeast(slot: Option<RT.Registration>, lease: Uuid, least: nat) {
    slot.Some? && slot.value.lease == lease ==> Rank(slot.value.revision) >= least
  }

  ghost predicate SlotInv(slot: Option<RT.Registration>, sent: set<Ticket>, accepted: map<Edition, Bindings>) {
    slot.Some? ==>
      var r := slot.value;
      && SentUpTo(sent, r.lease, Rank(r.revision) + 1)
      && AcceptedUpTo(accepted, r.lease, Rank(r.revision))
      && (r.revision.Some? ==> Has(accepted, r.lease, r.revision.value, r.bindings))
  }

  ghost predicate LeaseInv(lease: Option<Lease>, slot: Option<RT.Registration>, sent: set<Ticket>,
                           accepted: map<Edition, Bindings>) {
    lease.Some? ==>
      var l := lease.value;
      && SentUpTo(sent, l.id, Rank(l.revision) + 1)
      && AcceptedUpTo(accepted, l.id, Rank(l.revision) + 1)
      && ShardAtLeast(slot, l.id, Rank(l.revision))
  }

  ghost predicate SyncInv(c: Client, sent: set<Ticket>, accepted: map<Edition, Bindings>) {
    c.syncedVersion == Some(c.version) && c.snapshot.Some? && c.lease.Some? ==>
      var l := c.lease.value;
      && l.revision.Some? && l.revision.value >= 1
      && SentUpTo(sent, l.id, l.revision.value)
      && AcceptedUpTo(accepted, l.id, l.revision.value)
      && Has(accepted, l.id, l.revision.value, c.snapshot.value)
  }

  ghost predicate PendingInv(c: Client, sent: set<Ticket>) {
    c.pending.Some? ==>
      var t := c.pending.value;
      && t in sent
      && (t.action.DoRegister? ==> c.lease.None?)
      && (t.action.DoUpdate? ==>
            && c.lease.Some? && c.lease.value.id == t.action.lease
            && t.action.revision == Rank(c.lease.value.revision) + 1
            && c.syncedVersion != Some(c.version)
            && (t.version == c.version ==> c.snapshot == Some(t.action.snapshot)))
  }

  /** What an acknowledgement still vouches for. */
  ghost predicate AnswerInv(a: Answered, pending: Option<Ticket>, slot: Option<RT.Registration>, sent: set<Ticket>,
                            accepted: map<Edition, Bindings>) {
    var t := a.ticket;
    && (t.action.DoUpdate? ==>
          && a.ack.lease == t.action.lease
          && Has(accepted, t.action.lease, t.action.revision, t.action.snapshot)
          && ShardAtLeast(slot, t.action.lease, t.action.revision))
    && (t.action.DoRegister? && pending == Some(t) ==>
          && SentUpTo(sent, a.ack.lease, Rank(a.ack.acceptedRevision) + 1)
          && AcceptedUpTo(accepted, a.ack.lease, Rank(a.ack.acceptedRevision) + 1)
          && ShardAtLeast(slot, a.ack.lease, Rank(a.ack.acceptedRevision)))
  }

  ghost predicate AnswersInv(s: System) {
    forall a {:trigger AnswerInv(a, s.client.pending, s.slot, s.sent, s.accepted)} {:trigger a in s.answers} ::
      a in s.answers ==> a.ticket in s.sent && AnswerInv(a, s.client.pending, s.slot, s.sent, s.accepted)
  }

  predicate Names(t: Ticket, lease: Uuid) { t.action.LeaseId() == Some(lease) }

  /** Every lease id in play was drawn. */
  ghost predicate UsedInv(s: System) {
    && (s.slot.Some? ==> s.slot.value.lease in s.used)
    && (s.client.lease.Some? ==> s.client.lease.value.id in s.used)
    && (forall t, l {:trigger Names(t, l)} :: t in s.sent && Names(t, l) ==> l in s.used)
    && (forall e :: e in s.accepted ==> e.lease in s.used)
    && (forall a :: a in s.answers ==> a.ack.lease in s.used)
  }

  predicate Older(t: Ticket, c: Client, birth: nat) {
    t.version <= c.version && (t.version >= birth ==> t.attempt < c.nextAttempt)
  }

  /** No ticket is ever issued twice. */
  ghost predicate TicketsInv(s: System) {
    s.birth <= s.client.version && forall t :: t in s.sent ==> Older(t, s.client, s.birth)
  }

  ghost predicate Inv(s: System) {
    && SlotInv(s.slot, s.sent, s.accepted)
    && LeaseInv(s.client.lease, s.slot, s.sent, s.accepted)
    && SyncInv(s.client, s.sent, s.accepted)
    && PendingInv(s.client, s.sent)
    && AnswersInv(s)
    && UsedInv(s)
    && TicketsInv(s)
  }

  // ------------------------------------------------------------ client steps

  predicate SameLease(a: Option<Lease>, b: Option<Lease>) {
    a.Some? && b.Some? && a.value.id == b.value.id && a.value.revision == b.value.revision
  }

  /** `d` claims nothing that `c` does not. */
  predicate ClaimsLess(c: Client, d: Client) {
    && d.version >= c.version && d.nextAttempt == c.nextAttempt
    && (d.lease.Some? ==> SameLease(c.lease, d.lease))
    && (d.pending.Some? ==> d.pending == c.pending && (c.lease.Some? <==> d.lease.Some?))
    && (d.version == c.version ==> d.snapshot == c.snapshot)
    && (d.syncedVersion == Some(d.version) ==> c.syncedVersion == Some(c.version) && d.snapshot == c.snapshot)
  }

  lemma ClaimsLessInv(s: System, d: Client)
    requires Inv(s) && ClaimsLess(s.client, d)
    ensures Inv(s.(client := d))
  {
    var r := s.(client := d);
    assert SyncInv(d, s.sent, s.accepted);
    assert PendingInv(d, s.sent) by {
      if d.pending.Some? { assert Older(d.pending.value, s.client, s.birth); }
    }
    forall a | a in r.answers ensures a.ticket in r.sent && AnswerInv(a, d.pending, s.slot, s.sent, s.accepted) {
      assert AnswerInv(a, s.client.pending, s.slot, s.sent, s.accepted);
    }
    forall t | t in r.sent ensures Older(t, d, r.birth) { assert Older(t, s.client, s.birth); }
  }

  lemma PublishedClaimsLess(c: Client, version: nat, snapshot: Option<Bindings>, now: Instant)
    ensures ClaimsLess(c, Published(c, version, snapshot, now))
  {
  }

  lemma PreconditionClaimsLess(c: Client, t: Ticket, now: Instant)
    ensures ClaimsLess(c, PreconditionFailed(c, t, now))
  {
  }

  lemma FailuresClaimLess(c: Client, t: Ticket, now: Instant)
    ensures ClaimsLess(c, TransientFailure(c, t, now))
    ensures ClaimsLess(c, TerminalFailure(c, t))
    ensures ClaimsLess(c, FinishDeregister(c, t))
  {
  }

  lemma LossesClaimLess(c: Client, now: Instant)
    ensures ClaimsLess(c, ConnectionLost(c, now))
    ensures ClaimsLess(c, MarkTerminal(c))
  {
  }

  lemma KeepAliveClaimsLess(c: Client, t: Ticket, ack: RegistrationAck, now: Instant)
    ensures ClaimsLess(c, KeepAliveSucceeded(c, t, ack, now))
  {
  }

  /** A ticket begun now differs from every ticket sent before. */
  lemma FreshTicket(s: System, now: Instant)
    requires TicketsInv(s) && BeginNext(s.client, now).1.Started?
    ensures BeginNext(s.client, now).1.ticket !in s.sent
  {
    var t := BeginNext(s.client, now).1.ticket;
    assert !Older(t, s.client, s.birth);
  }

  lemma OneMoreSent(sent: set<Ticket>, t: Ticket, lease: Uuid, top: nat)
    requires SentUpTo(sent, lease, top) && (IsUpdate(t, lease) ==> t.action.revision <= top)
    ensures SentUpTo(sent + {t}, lease, top)
  {
  }

  lemma BeginAnswers(s: System, t: Ticket, d: Client)
    requires AnswersInv(s) && t !in s.sent && d.pending == Some(t) && s.client.pending.None?
    ensures AnswersInv(s.(client := d, sent := s.sent + {t}))
  {
    var r := s.(client := d, sent := s.sent + {t});
    forall a | a in r.answers ensures a.ticket in r.sent && AnswerInv(a, r.client.pending, r.slot, r.sent, r.accepted) {
      assert AnswerInv(a, s.client.pending, s.slot, s.sent, s.accepted);
    }
  }

  lemma BeginInv(s: System, now: Instant)
    requires Inv(s)
    ensures var (d, begun) := BeginNext(s.client, now);
            Inv(s.(client := d, sent := if begun.Started? then s.sent + {begun.ticket} else s.sent))
  {
    var (d, begun) := BeginNext(s.client, now);
    if begun.Started? {
      var t := begun.ticket;
      FreshTicket(s, now);
      BeginAnswers(s, t, d);
      var sent := s.sent + {t};
      if s.slot.Some? {
        OneMoreSent(s.sent, t, s.slot.value.lease, Rank(s.slot.value.revision) + 1);
      }
      if s.client.lease.Some? {
        var l := s.client.lease.value;
        OneMoreSent(s.sent, t, l.id, Rank(l.revision) + 1);
        if s.client.syncedVersion == Some(s.client.version) && s.client.snapshot.Some? {
          OneMoreSent(s.sent, t, l.id, l.revision.value);
        }
      }
      var r := s.(client := d, sent := sent);
      assert UsedInv(r);
      assert TicketsInv(r) by {
        forall u | u in r.sent ensures Older(u, r.client, r.birth) { if u != t { assert Older(u, s.client, s.birth); } }
      }
    }
  }

  // ------------------------------------------------------------- shard steps

  /** The shard keeps its lease and revision, or forgets them. */
  predicate Settles(slot: Option<RT.Registration>, later: Option<RT.Registration>) {
    later.Some? ==>
      && slot.Some? && later.value.lease == slot.value.lease
      && later.value.revision == slot.value.revision && later.value.bindings == slot.value.bindings
  }

  lemma SettlesInv(s: System, later: Option<RT.Registration>, draw: Uuid)
    requires Inv(s) && Settles(s.slot, later)
    ensures Inv(s.(slot := later, used := s.used + {draw}))
  {
    var r := s.(slot := later, used := s.used + {draw});
    forall a | a in r.answers ensures a.ticket in r.sent && AnswerInv(a, r.client.pending, r.slot, r.sent, r.accepted) {
      assert AnswerInv(a, s.client.pending, s.slot, s.sent, s.accepted);
    }
  }

  /** A new acknowledgement that vouches for what the system shows joins the rest. */
  lemma AnsweredInv(s: System, a: Answered)
    requires Inv(s) && a.ticket in s.sent && a.ack.lease in s.used
    requires AnswerInv(a, s.client.pending, s.slot, s.sent, s.accepted)
    ensures Inv(s.(answers := s.answers + {a}))
  {
    var r := s.(answers := s.answers + {a});
    forall b | b in r.answers ensures b.ticket in r.sent && AnswerInv(b, r.client.pending, r.slot, r.sent, r.accepted) {
      if b != a { assert AnswerInv(b, s.client.pending, s.slot, s.sent, s.accepted); }
    }
  }

  lemma RegisterInv(c: RT.ShardConfig, key: RegistrationKey, s: System, t: Ticket, now: Instant, draw: Uuid)
    requires Inv(s) && t in s.sent && draw !in s.used && t.action.DoRegister?
    ensures Inv(Delivered(c, key, s, t, now, draw))
  {
    var live := Unexpired(s.slot, now);
    var out := OutcomeOf(c, key, s, t, now, draw);
    var mid := s.(slot := out.slot, used := s.used + {draw});
    if live.Some? || out.slot.None? {
      SettlesInv(s, out.slot, draw);
    } else {
      NewSlotInv(s, out.slot.value, draw);
    }
    if out.reply.Acked? {
      AnsweredInv(mid, Answered(t, out.reply.ack));
    }
  }

  /** A lease id nobody has seen carries no history. */
  lemma NewSlotInv(s: System, r: RT.Registration, draw: Uuid)
    requires Inv(s) && draw !in s.used && r.lease == draw && r.revision.None?
    ensures Inv(s.(slot := Some(r), used := s.used + {draw}))
  {
    var n := s.(slot := Some(r), used := s.used + {draw});
    forall t | t in s.sent && IsUpdate(t, draw) ensures false { assert Names(t, draw); }
    assert SlotInv(n.slot, n.sent, n.accepted);
    forall a | a in n.answers ensures a.ticket in n.sent && AnswerInv(a, n.client.pending, n.slot, n.sent, n.accepted) {
      assert AnswerInv(a, s.client.pending, s.slot, s.sent, s.accepted);
      assert a.ack.lease in s.used;
    }
  }

  /** `more` only adds revision `top` of `lease` to `accepted`. */
  lemma AcceptMore(accepted: map<Edition, Bindings>, e: Edition, b: Bindings, lease: Uuid, top: nat)
    requires AcceptedUpTo(accepted, lease, top) && (e.lease == lease ==> e.revision <= top)
    ensures AcceptedUpTo(accepted[e := b], lease, top)
  {
  }

  lemma AcceptedAnswer(a: Answered, s: System, n: System, t: Ticket)
    requires AnswerInv(a, s.client.pending, s.slot, s.sent, s.accepted)
    requires n.client == s.client && n.sent == s.sent && t in s.sent && t.action.DoUpdate?
    requires n.accepted == s.accepted[Edition(t.action.lease, t.action.revision) := t.action.snapshot]
    requires s.slot.Some? && n.slot.Some? && s.slot.value.lease == n.slot.value.lease == t.action.lease
    requires n.slot.value.revision == Some(t.action.revision) && Rank(s.slot.value.revision) < t.action.revision
    requires AcceptedUpTo(s.accepted, t.action.lease, Rank(s.slot.value.revision))
    ensures AnswerInv(a, n.client.pending, n.slot, n.sent, n.accepted)
  {
    var e := Edition(t.action.lease, t.action.revision);
    assert e !in s.accepted;
    if a.ticket.action.DoRegister? && s.client.pending == Some(a.ticket) {
      assert IsUpdate(t, t.action.lease);
      AcceptMore(s.accepted, e, t.action.snapshot, a.ack.lease, Rank(a.ack.acceptedRevision) + 1);
    }
  }

  /** The shard accepts a new revision. */
  lemma AcceptInv(s: System, t: Ticket, r: RT.Registration, draw: Uuid)
    requires Inv(s) && t in s.sent && t.action.DoUpdate? && s.slot.Some? && s.slot.value.lease == t.action.lease
    requires Rank(s.slot.value.revision) < t.action.revision
    requires r == s.slot.value.(revision := Some(t.action.revision), bindings := t.action.snapshot)
    ensures Inv(s.(slot := Some(r), used := s.used + {draw},
                   accepted := s.accepted[Edition(t.action.lease, t.action.revision) := t.action.snapshot]))
  {
    var e := Edition(t.action.lease, t.action.revision);
    var n := s.(slot := Some(r), used := s.used + {draw}, accepted := s.accepted[e := t.action.snapshot]);
    assert IsUpdate(t, t.action.lease) && Names(t, t.action.lease);
    assert e !in s.accepted;
    AcceptMore(s.accepted, e, t.action.snapshot, r.lease, t.action.revision);
    assert SlotInv(n.slot, n.sent, n.accepted);
    if s.client.lease.Some? {
      var l := s.client.lease.value;
      AcceptMore(s.accepted, e, t.action.snapshot, l.id, Rank(l.revision) + 1);
      if s.client.syncedVersion == Some(s.client.version) && s.client.snapshot.Some? {
        AcceptMore(s.accepted, e, t.action.snapshot, l.id, l.revision.value);
      }
    }
    forall a | a in n.answers ensures a.ticket in n.sent && AnswerInv(a, n.client.pending, n.slot, n.sent, n.accepted) {
      AcceptedAnswer(a, s, n, t);
    }
  }

  lemma UpdateInv(c: RT.ShardConfig, key: RegistrationKey, s: System, t: Ticket, now: Instant, draw: Uuid)
    requires Inv(s) && t in s.sent && t.action.DoUpdate?
    ensures Inv(Delivered(c, key, s, t, now, draw))
  {
    var live := Unexpired(s.slot, now);
    var out := OutcomeOf(c, key, s, t, now, draw);
    var e := Edition(t.action.lease, t.action.revision);
    assert Names(t, t.action.lease);
    if !out.reply.Acked? {
      SettlesInv(s, out.slot, draw);
    } else {
      if live.value.revision == Some(t.action.revision) {
        assert s.accepted[e := t.action.snapshot] == s.accepted;
        SettlesInv(s, out.slot, draw);
      } else {
        AcceptInv(s, t, out.slot.value, draw);
      }
      var mid := s.(slot := out.slot, used := s.used + {draw}, accepted := s.accepted[e := t.action.snapshot]);
      AnsweredInv(mid, Answered(t, out.reply.ack));
    }
  }

  lemma OtherDeliveryInv(c: RT.ShardConfig, key: RegistrationKey, s: System, t: Ticket, now: Instant, draw: Uuid)
    requires Inv(s) && t in s.sent && (t.action.DoKeepAlive? || t.action.DoDeregister?)
    ensures Inv(Delivered(c, key, s, t, now, draw))
  {
    var out := OutcomeOf(c, key, s, t, now, draw);
    assert Names(t, t.action.lease);
    SettlesInv(s, out.slot, draw);
    if out.reply.Acked? {
      AnsweredInv(s.(slot := out.slot, used := s.used + {draw}), Answered(t, out.reply.ack));
    }
  }

  // ------------------------------------------------------------ success steps

  lemma SentHigher(sent: set<Ticket>, lease: Uuid, top: nat, higher: nat)
    requires SentUpTo(sent, lease, top) && top <= higher
    ensures SentUpTo(sent, lease, higher)
  {
  }

  lemma AcceptedHigher(accepted: map<Edition, Bindings>, lease: Uuid, top: nat, higher: nat)
    requires AcceptedUpTo(accepted, lease, top) && top <= higher
    ensures AcceptedUpTo(accepted, lease, higher)
  {
  }

  /** The client's claims changed, but nothing is pending any more. */
  lemma SettledClientInv(s: System, d: Client)
    requires Inv(s) && d.pending.None? && d.version == s.client.version && d.nextAttempt == s.client.nextAttempt
    requires LeaseInv(d.lease, s.slot, s.sent, s.accepted) && SyncInv(d, s.sent, s.accepted)
    requires d.lease.Some? ==> d.lease.value.id in s.used
    ensures Inv(s.(client := d))
  {
    var r := s.(client := d);
    forall a | a in r.answers ensures a.ticket in r.sent && AnswerInv(a, r.client.pending, r.slot, r.sent, r.accepted) {
      assert AnswerInv(a, s.client.pending, s.slot, s.sent, s.accepted);
    }
    forall t | t in r.sent ensures Older(t, r.client, r.birth) { assert Older(t, s.client, s.birth); }
  }

  lemma RegisterSucceededInv(s: System, a: Answered, now: Instant)
    requires Inv(s) && a in s.answers && a.ticket.action.DoRegister?
    ensures Inv(s.(client := RegisterSucceeded(s.client, a.ticket, a.ack, now)))
  {
    var d := RegisterSucceeded(s.client, a.ticket, a.ack, now);
    assert AnswerInv(a, s.client.pending, s.slot, s.sent, s.accepted);
    if TakeCurrent(s.client, a.ticket).1 {
      SettledClientInv(s, d);
    } else {
      ClaimsLessInv(s, d);
    }
  }

  lemma UpdateSucceededInv(s: System, a: Answered, now: Instant)
    requires Inv(s) && a in s.answers && a.ticket.action.DoUpdate?
    ensures Inv(s.(client := UpdateSucceeded(s.client, a.ticket, a.ack, now)))
  {
    var t := a.ticket;
    var d := UpdateSucceeded(s.client, t, a.ack, now);
    assert AnswerInv(a, s.client.pending, s.slot, s.sent, s.accepted);
    if TakePending(s.client, t).1 {
      SentHigher(s.sent, t.action.lease, t.action.revision, t.action.revision + 1);
      AcceptedHigher(s.accepted, t.action.lease, t.action.revision, t.action.revision + 1);
      SettledClientInv(s, d);
    } else {
      ClaimsLessInv(s, d);
    }
  }

  lemma SucceedInv(s: System, a: Answered, now: Instant)
    requires Inv(s) && a in s.answers
    ensures Inv(s.(client := Succeeded(s.client, a, now)))
  {
    match a.ticket.action
    case DoRegister => RegisterSucceededInv(s, a, now);
    case DoUpdate(_, _, _) => UpdateSucceededInv(s, a, now);
    case DoKeepAlive(_) =>
      KeepAliveClaimsLess(s.client, a.ticket, a.ack, now);
      ClaimsLessInv(s, Succeeded(s.client, a, now));
    case DoDeregister(_) =>
  }

  lemma RecreateInv(s: System, version: nat, snapshot: Option<Bindings>, now: Instant)
    requires Inv(s) && version > s.client.version
    ensures Inv(s.(client := NewClient(s.client.pacing, version, snapshot, now), birth := version))
  {
    var r := s.(client := NewClient(s.client.pacing, version, snapshot, now), birth := version);
    forall a | a in r.answers ensures a.ticket in r.sent && AnswerInv(a, r.client.pending, r.slot, r.sent, r.accepted) {
      assert AnswerInv(a, s.client.pending, s.slot, s.sent, s.accepted);
    }
    forall t | t in r.sent ensures Older(t, r.client, r.birth) { assert Older(t, s.client, s.birth); }
  }

  lemma DeliverInv(c: RT.ShardConfig, key: RegistrationKey, s: System, t: Ticket, now: Instant, draw: Uuid)
    requires Inv(s) && t in s.sent && draw !in s.used
    ensures Inv(Delivered(c, key, s, t, now, draw))
  {
    if t.action.DoRegister? { RegisterInv(c, key, s, t, now, draw); }
    else if t.action.DoUpdate? { UpdateInv(c, key, s, t, now, draw); }
    else { OtherDeliveryInv(c, key, s, t, now, draw); }
  }

  lemma NextInv(c: RT.ShardConfig, key: RegistrationKey, s: System, x: Step)
    requires Inv(s) && Possible(s, x)
    ensures Inv(Next(c, key, s, x))
  {
    match x
    case Publish(version, snapshot, now) =>
      PublishedClaimsLess(s.client, version, snapshot, now);
      ClaimsLessInv(s, Published(s.client, version, snapshot, now));
    case Begin(now) => BeginInv(s, now);
    case Deliver(ticket, now, draw) => DeliverInv(c, key, s, ticket, now, draw);
    case Succeed(answer, now) => SucceedInv(s, answer, now);
    case FailPrecondition(ticket, now) =>
      PreconditionClaimsLess(s.client, ticket, now);
      ClaimsLessInv(s, PreconditionFailed(s.client, ticket, now));
    case FailTransient(ticket, now) =>
      FailuresClaimLess(s.client, ticket, now);
      ClaimsLessInv(s, TransientFailure(s.client, ticket, now));
    case FailTerminal(ticket) =>
      FailuresClaimLess(s.client, ticket, 0);
      ClaimsLessInv(s, TerminalFailure(s.client, ticket));
    case EndDeregister(ticket) =>
      FailuresClaimLess(s.client, ticket, 0);
      ClaimsLessInv(s, FinishDeregister(s.client, ticket));
    case LoseConnection(now) =>
      LossesClaimLess(s.client, now);
      ClaimsLessInv(s, ConnectionLost(s.client, now));
    case TurnTerminal =>
      LossesClaimLess(s.client, 0);
      ClaimsLessInv(s, MarkTerminal(s.client));
    case Expire => ExpireInv(s);
    case Recreate(version, snapshot, now) => RecreateInv(s, version, snapshot, now);
  }

  lemma ExpireInv(s: System)
    requires Inv(s)
    ensures Inv(s.(slot := None))
  {
    var r := s.(slot := None);
    forall a | a in r.answers ensures a.ticket in r.sent && AnswerInv(a, r.client.pending, r.slot, r.sent, r.accepted) {
      assert AnswerInv(a, s.client.pending, s.slot, s.sent, s.accepted);
    }
  }

  // -------------------------------------------------------------------- runs

  ghost predicate Run(c: RT.ShardConfig, key: RegistrationKey, s: System, steps: seq<Step>)
    decreases |steps|
  {
    steps != [] ==> Possible(s, steps[0]) && Run(c, key, Next(c, key, s, steps[0]), steps[1..])
  }

  function After(c: RT.ShardConfig, key: RegistrationKey, s: System, steps: seq<Step>): System
    requires Run(c, key, s, steps)
    decreases |steps|
  {
    if steps == [] then s else After(c, key, Next(c, key, s, steps[0]), steps[1..])
  }

  function Start(p: Pacing, version: nat, snapshot: Option<Bindings>, now: Instant): System {
    System(NewClient(p, version, snapshot, now), None, {}, {}, {}, map[], version)
  }

  lemma {:induction false} RunInv(c: RT.ShardConfig, key: RegistrationKey, s: System, steps: seq<Step>)
    requires Inv(s) && Run(c, key, s, steps)
    ensures Inv(After(c, key, s, steps))
    decreases |steps|
  {
    if steps != [] {
      NextInv(c, key, s, steps[0]);
      RunInv(c, key, Next(c, key, s, steps[0]), steps[1..]);
    }
  }

  // -------------------------------------------------------- what is wanted

  /** A version of what the session wants of the shard. */
  datatype Wish = Wish(version: nat, snapshot: Option<Bindings>)

  /** The wishes a list of steps states, in order. */
  function Wishes(steps: seq<Step>): seq<Wish> {
    if steps == [] then []
    else
      (match steps[0]
       case Publish(version, snapshot, _) => [Wish(version, snapshot)]
       case Recreate(version, snapshot, _) => [Wish(version, snapshot)]
       case _ => []) + Wishes(steps[1..])
  }

  /** The first wish with the highest version. */
  ghost predicate Latest(w: Wish, wishes: seq<Wish>) {
    exists k :: LatestAt(w, wishes, k)
  }

  ghost predicate LatestAt(w: Wish, wishes: seq<Wish>, k: int) {
    && 0 <= k < |wishes| && wishes[k] == w
    && (forall j :: 0 <= j < k ==> wishes[j].version < w.version)
    && (forall j :: 0 <= j < |wishes| ==> wishes[j].version <= w.version)
  }

  lemma LatestUnique(w: Wish, v: Wish, wishes: seq<Wish>)
    requires Latest(w, wishes) && Latest(v, wishes)
    ensures w == v
  {
    var k :| LatestAt(w, wishes, k);
    var l :| LatestAt(v, wishes, l);
    assert wishes[k].version <= v.version && wishes[l].version <= w.version;
  }

  lemma OneMoreWish(w: Wish, wishes: seq<Wish>, v: Wish)
    requires Latest(w, wishes)
    ensures Latest(if v.version > w.version then v else w, wishes + [v])
  {
    var k :| LatestAt(w, wishes, k);
    if v.version > w.version { assert LatestAt(v, wishes + [v], |wishes|); }
    else { assert LatestAt(w, wishes + [v], k); }
  }

  function WishOf(c: Client): Wish { Wish(c.version, c.snapshot) }

  /** Only a newer wish changes what the client wants, and it then wants exactly that. */
  lemma NextWish(c: RT.ShardConfig, key: RegistrationKey, s: System, x: Step)
    requires Possible(s, x)
    ensures WishOf(Next(c, key, s, x).client) ==
            match x
            case Publish(version, snapshot, _) =>
              if version > s.client.version then Wish(version, snapshot) else WishOf(s.client)
            case Recreate(version, snapshot, _) => Wish(version, snapshot)
            case _ => WishOf(s.client)
  {
    match x
    case Succeed(answer, now) => SuccessWish(s.client, answer, now);
    case Begin(now) => BeginWish(s.client, now);
    case Deliver(_, _, _) =>
    case _ =>
  }

  lemma SuccessWish(c: Client, answer: Answered, now: Instant)
    ensures WishOf(Succeeded(c, answer, now)) == WishOf(c)
  {
  }

  lemma BeginWish(c: Client, now: Instant)
    ensures WishOf(BeginNext(c, now).0) == WishOf(c)
  {
  }

  lemma {:induction false} RunWish(c: RT.ShardConfig, key: RegistrationKey, s: System, steps: seq<Step>,
                                   before: seq<Wish>)
    requires Run(c, key, s, steps) && Latest(WishOf(s.client), before)
    ensures Latest(WishOf(After(c, key, s, steps).client), before + Wishes(steps))
    decreases |steps|
  {
    if steps == [] {
      assert before + [] == before;
    } else {
      var x, rest, n := steps[0], Wishes(steps[1..]), Next(c, key, s, steps[0]);
      NextWish(c, key, s, x);
      if x.Publish? || x.Recreate? {
        var v := Wish(x.version, x.snapshot);
        OneMoreWish(WishOf(s.client), before, v);
        RunWish(c, key, n, steps[1..], before + [v]);
        assert before + [v] + rest == before + ([v] + rest);
      } else {
        RunWish(c, key, n, steps[1..], before);
        assert [] + rest == rest;
      }
    }
  }

  /** In every run the client wants what was last published: the first wish with the highest version. */
  lemma WantsTheLatest(c: RT.ShardConfig, key: RegistrationKey, p: Pacing, version: nat, snapshot: Option<Bindings>,
                       now: Instant, steps: seq<Step>)
    requires Run(c, key, Start(p, version, snapshot, now), steps)
    ensures Latest(WishOf(After(c, key, Start(p, version, snapshot, now), steps).client),
                   [Wish(version, snapshot)] + Wishes(steps))
  {
    var start := Start(p, version, snapshot, now);
    assert LatestAt(WishOf(start.client), [Wish(version, snapshot)], 0);
    RunWish(c, key, start, steps, [Wish(version, snapshot)]);
  }

  /**
   In every run: while the registration is Synced and the shard holds its lease,
   the shard has the client's revision and exactly the bindings last published.
   */
  lemma SyncedMeansSame(c: RT.ShardConfig, key: RegistrationKey, p: Pacing, version: nat, snapshot: Option<Bindings>,
                        now: Instant, steps: seq<Step>)
    requires Run(c, key, Start(p, version, snapshot, now), steps)
    ensures var s := After(c, key, Start(p, version, snapshot, now), steps);
            s.client.IsSynced() && s.slot.Some? && s.client.LeaseId() == Some(s.slot.value.lease) ==>
              && s.slot.value.revision == s.client.lease.value.revision
              && s.client.snapshot == Some(s.slot.value.bindings)
              && Latest(Wish(s.client.version, Some(s.slot.value.bindings)),
                        [Wish(version, snapshot)] + Wishes(steps))
  {
    var start := Start(p, version, snapshot, now);
    assert Inv(start);
    RunInv(c, key, start, steps);
    SyncedSame(After(c, key, start, steps));
    WantsTheLatest(c, key, p, version, snapshot, now, steps);
  }

  lemma SyncedSame(s: System)
    requires Inv(s)
    ensures s.client.IsSynced() && s.slot.Some? && s.client.LeaseId() == Some(s.slot.value.lease) ==>
              && s.slot.value.revision == s.client.lease.value.revision
              && s.client.snapshot == Some(s.slot.value.bindings)
  {
  }
}
