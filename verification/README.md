# RelayGate, modelled and verified in Dafny

RelayGate lets programs behind NAT reach each other through Gateways. A Gateway
publishes its sessions' bindings in a sharded, soft-state RouteTable, and relays
Pipes to other Gateways over multiplexed peer transports. This project models
the parts of it whose correctness is hard to see, and proves what they promise.

`dafny verify dfyconfig.toml` checks everything.

| part | files |
|---|---|
| peer stream multiplexer | `PeerActor` (the actor as a value), `PeerLifecycle`, `PeerRuns`, `PeerGrammar`, `PeerReleases`, `PeerAnswers` (one actor, any input), `PeerLane`, `PeerPair`, `PeerNetwork`, `PeerDelivery`, `PeerProvenance` (two actors over ordered wires), `FlushOrder`, `PeerTransport` (the actor changed in place), `PeerDeadlines` |
| RouteTable shard | `RouteModel`, `RouteTable` (a plain map), `RouteAnswers` (its answers in the callers' terms), `RouteShard` (the indexes) |
| registration protocol | `Registration` (the client as a value), `RegistrationObject` (changed in place), `RegistrationProtocol` (client, shard and a lossy network), `RegistrationWorker` (the object in that protocol), `RegistrationConvergence` |
| desired state | `Desired`, `Projection` |
| wire formats | `ErrorCodes`, `BigEndian`, `Destinations`, `WireFields`, `WireFraming`, `WireStream`, `PeerCodec`, `SdkCodec`, `WireLayout` (both formats byte by byte) |
| local Gateway state | `Registry`, `RateLimit`, `GatewayPipes` (Pipes and attempts as a value), `GatewayRuns`, `GatewayAnswers`, `GatewayObject` (changed in place), `Liveness` |
| shared | `Common`, `PeerFrames`, `Arithmetic` |

Objects that the program updates in place are classes here. Each method is tied
to a function of the old state, and the promises are proved of those functions
for every input, every run or every reachable state.

How the hard parts are put together:

- **One actor, then two.** An actor's actions are indivisible (one frame pumped,
  one stream expired, one frame received), so any interleaving of the program's
  longer operations is a run of them. Each actor records what others can
  observe. `EventsFollowTheGrammar` reads every stream's record as a grammar.
  Two actors and two wires form a `Net`; its invariant says, per stream and
  direction, that what was delivered, what is under way and what was accepted
  fit together, and that every frame under way is one the receiver can take.
- **What arrives is what was said.** `Deeds` lists each actor's actions with the
  stream an OPEN got. `PeerProvenance` explains every event of a run by such a
  deed, field by field, so a swapped or invented field would be seen.
- **The flush.** The simple meaning is `Schedule`: passes over the whole stream
  map in ascending order, one frame per nonempty queue. The program walks a
  ready index, restarts at the lowest identifier each pass, may stop when the
  writer is full, and shares the writer with a concurrent task. `Stable` is any
  property of actors that no step of that task or of the flush breaks;
  `FlushStreamQueues` keeps every such property, so it does nothing beyond
  those steps, and the writer gets the schedule's frames.
- **Histories.** Several results read the state off the list of steps and use
  none of the functions that compute it: what a registration wants
  (`WantsTheLatest`), what a shard holds (`BindingsFromUpdate`), what a worker
  holds (`WorkerHoldsLastCommitted`), when an OPEN times out
  (`FailsAtItsDeadline`), when a transport is probed or retired
  (`ProbedExactly`, `RetiredExactly`).
- **The shard.** `registrationIndex` is the plain map; the grouping by
  Destination, the expiry records, the lease set and both counters are proved
  to agree with it after every method.
- **The registration protocol.** Every request ever sent may arrive at any later
  time, any number of times. Success handlers get only the shard's answer to
  their own ticket; failure handlers run at any time; the shard may forget a
  registration at any time; the Gateway may drop and re-create its side. A
  request that the shard's validation refuses is like one that never arrives. The
  invariant bounds every revision sent or accepted under a lease by what client
  and shard know, which makes Synced mean what it says.
- **The wire formats.** Each frame kind is a list of typed fields. Reading and
  writing fields are proved inverse once, and both formats inherit it.
  `WireLayout` writes both formats out and proves that the encoders agree.

What the code gives, and no more:

- A second lease-bound precondition failure while a probe is out is terminal, so
  not every settled registration catches up. `Doomed` says which do not;
  `ConvergesUnlessDoomed` proves that it is exact, and `DoomedReachable` that such
  states occur.
- Each flush starts again at the lowest stream, so fairness holds within one
  flush. `ServedExactly` says when a flush reaches a stream.
- The token bucket's limit holds over given times, for every bucket and run, if
  and only if the clock does not go back (`LimitExactly`). For any clock it holds
  in forward movement instead of time passed (`TakesWithinForward`), and no
  smaller bound does (`ForwardIsTight`).
- Capacity polls change no admission while the clock only rises or only falls, and
  only then (`PollsExactly`).
- The Gateway checks neither that an incoming OPEN leaves alone the stream reserved
  for an outgoing one, nor that it names none of this Gateway's sessions. Its
  tables stay exact in every run where peers see to both (`TablesStayExact`);
  otherwise its own assertions can fail (`SharedStreamFails`, `NamedSessionFails`).
- A lease is renewed before it runs out except in the cases `RenewalInTime` names.
- The selection cursor wraps at 2^64. `RoundRobinExactly` says exactly when that
  disturbs a round.

## Model

| member | source | states |
|---|---|---|
| `PeerActor.MakeId` | crates/relaygate-gateway-peer/src/identity.rs:129-138 | an allocated StreamId carries its counter and the role bit of the endpoint that allocated it |
| `PeerLifecycle.CommandOk` | crates/relaygate-gateway-peer/src/transport/command.rs:125-321 | every stream command leaves the stream sound: phase, progress, deadline and terminal mark agree, the queue stays within its capacity and holds only this stream's frames, and the owner never changes |
| `PeerLifecycle.InboundOk` | crates/relaygate-gateway-peer/src/transport/inbound.rs:162-355 | the same for any frame the other side may send, well-behaved or not |
| `PeerLifecycle.ExpireOk` | crates/relaygate-gateway-peer/src/transport/state.rs:118-166 | the same for an expired open deadline |
| `PeerRuns.NextInv` | crates/relaygate-gateway-peer/src/transport/actor.rs:76-104 | every action of the actor and of its companion tasks keeps the whole invariant: ready index exact, owners reserved and distinct, no identifier reused, stream count equal to the map size, and each stream's recorded life in step with its state |
| `PeerRuns.RunInv` | crates/relaygate-gateway-peer/src/transport/actor.rs:28-124 | hence the invariant holds after every run of commands, frames, deadlines and writer steps, in any order |
| `PeerGrammar.EventsFollowTheGrammar` | crates/relaygate-gateway-peer/src/transport/inbound.rs:91-355 | in every run, whatever arrives, the visible story of each stream is: inserted, opening event, DATA, at most one FIN, at most one terminal event, departure; it ends in a departure exactly when the stream was inserted and is gone |
| `PeerGrammar.GrammarForbids` | crates/relaygate-gateway-peer/src/transport/inbound.rs:226-306 | read off the grammar: no DATA or second FIN after a FIN, only the departure after Failed, Close or Reset, one opening event, one departure |
| `PeerDelivery.NetNextInv` | crates/relaygate-gateway-peer/src/transport/inbound.rs:20-89 | every step of two connected actors keeps the joint invariant that relates what one end accepted, what is queued or on the wire, and what the other end delivered |
| `PeerDelivery.DataArrivesInOrder` | crates/relaygate-gateway-peer/src/transport/command.rs:200-259 | in every run of two connected actors the DATA events at one end are an in-order prefix of the payloads `send_data` accepted at the other, and a Fin event means all of them have arrived |
| `PeerDelivery.NobodyBreaksTheProtocol` | crates/relaygate-gateway-peer/src/identity.rs:129-171 | in every such run no OPEN is refused by the StreamId guard and no inbound frame triggers a protocol reset |
| `PeerDelivery.DrainedMeansDelivered` | crates/relaygate-gateway-peer/src/transport/state.rs:168-221 | once a stream both ends still use has drained, everything accepted has been delivered: nothing is lost or duplicated |
| `PeerProvenance.EventsTellTheTruth` | crates/relaygate-gateway-peer/src/transport/inbound.rs:20-355 | in every run of two connected actors every event either end reports is explained by a named earlier action: what the other end was told to send, an expired deadline of its own, or a refusal, with the same contents |
| `PeerProvenance.OpenArrivesAsAsked` | crates/relaygate-gateway-peer/src/transport/inbound.rs:91-160 | in every such run an incoming OPEN carries the identity, Destination, session and binding of exactly one OPEN command of the other end, the one that was answered with this stream |
| `PeerProvenance.ResetArrivesAsSaid` | crates/relaygate-gateway-peer/src/transport/inbound.rs:297-306 | a reported reset carries the code and message the other end was told to reset with, or those of its cancel, of its close of a stream not yet open, or of its own deadline |
| `PeerProvenance.FailureArrivesAsSaid` | crates/relaygate-gateway-peer/src/transport/inbound.rs:195-224 | a reported OPEN failure carries code, observation and message of its cause (FAILED or RESET at the other end, refusal there, or the own deadline) and the identity that was asked for |
| `PeerReleases.IdentityHeldWhileLive` | crates/relaygate-gateway-peer/src/transport/state.rs:234-252 | for every action and every live stream: the stream stays, with the same owner, if and only if its OPEN identity stays reserved |
| `PeerReleases.RefusedOpenLeavesNothing` | crates/relaygate-gateway-peer/src/transport/command.rs:60-108 | a refused OPEN releases exactly its own identity, queues no frame, inserts no stream, reports the attempt's end and answers NotObserved |
| `PeerReleases.NewStreamsAreNew` | crates/relaygate-gateway-peer/src/transport/inbound.rs:91-160 | a stream that appears never overwrites one: its identifier was unused before and is used up afterwards |
| `PeerAnswers.OpenAnswered` | crates/relaygate-gateway-peer/src/transport/command.rs:60-108 | which answer an OPEN command gets, from stream count, writer, identifiers and reservations alone |
| `PeerAnswers.OpenCommits` | crates/relaygate-gateway-peer/src/transport/command.rs:60-108 | a successful OPEN writes one OPEN frame with the request's own fields and adds one opening stream with the deadline |
| `PeerAnswers.RemoteOpenAdmitted` | crates/relaygate-gateway-peer/src/transport/inbound.rs:91-160 | an incoming OPEN that nothing objects to adds one stream, reserves its identity and is reported with its own fields |
| `PeerAnswers.RemoteOpenDeclined` | crates/relaygate-gateway-peer/src/transport/inbound.rs:91-160 | any other is refused with the code of the first objection, adds no stream and reports nothing |
| `PeerAnswers.OpenedReceived` | crates/relaygate-gateway-peer/src/transport/inbound.rs:162-193 | OPENED is reported exactly once, for a stream this side asked for; for the other side's streams it breaks the protocol |
| `PeerAnswers.FailedReceived` | crates/relaygate-gateway-peer/src/transport/inbound.rs:195-224 | FAILED ends and reports exactly an unanswered OPEN of this side; anything else breaks the protocol |
| `PeerAnswers.DataReceived` | crates/relaygate-gateway-peer/src/transport/inbound.rs:226-243 | DATA is reported and changes nothing, if the stream is open and the sender has not finished; otherwise it breaks the protocol |
| `PeerAnswers.FinReceived` | crates/relaygate-gateway-peer/src/transport/inbound.rs:245-276 | the first FIN is reported and recorded; the stream leaves with it exactly if this side has finished and nothing is queued |
| `PeerAnswers.CloseReceived` | crates/relaygate-gateway-peer/src/transport/inbound.rs:278-295 | CLOSE ends and reports an open stream, and breaks the protocol before |
| `PeerAnswers.ResetReceived` | crates/relaygate-gateway-peer/src/transport/inbound.rs:297-355 | RESET always ends the stream, as a failed OPEN if this side asked and had no answer, as a reset otherwise |
| `PeerAnswers.OverIsOver` | crates/relaygate-gateway-peer/src/transport/inbound.rs:20-89 | once the last frame of a stream is queued, nothing that arrives changes it |
| `PeerAnswers.DataAnswered` | crates/relaygate-gateway-peer/src/transport/command.rs:200-228 | DATA is queued if and only if the stream is open, this side has not finished and there is room; otherwise which refusal |
| `PeerAnswers.FinAnswered` | crates/relaygate-gateway-peer/src/transport/command.rs:230-259 | the same for FIN, which ends the stream exactly if the other side has finished |
| `PeerAnswers.CloseAnswered` | crates/relaygate-gateway-peer/src/transport/command.rs:261-290 | the same for CLOSE, a RESET before the stream is open |
| `PeerAnswers.ResetAnswered` | crates/relaygate-gateway-peer/src/transport/command.rs:292-321 | the same for RESET; a full queue fails the transport |
| `PeerAnswers.OpenedAnswered` | crates/relaygate-gateway-peer/src/transport/command.rs:125-160 | OPENED answers only an unanswered OPEN of the other side |
| `PeerAnswers.FailedAnswered` | crates/relaygate-gateway-peer/src/transport/command.rs:162-198 | and so does FAILED |
| `PeerAnswers.CancelResetsItsOwn` | crates/relaygate-gateway-peer/src/transport/command.rs:110-123 | cancelling an OPEN resets the one stream of that identity and leaves all others alone |
| `PeerAnswers.LossTells` | crates/relaygate-gateway-peer/src/transport/state.rs:254-273 | a lost stream is reported under its owner, as opened exactly if it was |
| `PeerAnswers.PingAnswered` | crates/relaygate-gateway-peer/src/transport/inbound.rs:20-89 | a PING is answered with a PONG of its nonce if the writer has room |
| `PeerAnswers.LimitsHold` | crates/relaygate-gateway-peer/src/transport/state.rs:61-91 | in every run streams, queues and the writer stay within their limits |
| `PeerReleases.ActionsSettle` | crates/relaygate-gateway-peer/src/transport/state.rs:280-312 | every action but a pump keeps: a live stream that is over still has a frame to write |
| `PeerReleases.FlushSettles` | crates/relaygate-gateway-peer/src/transport/state.rs:210-212 | and a flush restores it, unless it found the writer gone |
| `PeerReleases.Flush` | crates/relaygate-gateway-peer/src/transport/state.rs:168-221 | a flush of the actor leaves streams that had some turns of the schedule, or a failed transport, and never undoes a failure |
| `PeerReleases.SettledOrFailed` | crates/relaygate-gateway-peer/src/transport/state.rs:168-252 | after every sequence of actions and flushes, every live stream that is over still has a frame to write, or the transport has failed |
| `PeerDeadlines.FailsAtItsDeadline` | crates/relaygate-gateway-peer/src/transport/state.rs:118-166 | in every run, a local stream whose OPEN was sent at t and not answered is failed with DeadlineExceeded by the first expiry pass at or after t plus the response timeout, unless that pass fails the whole transport; no earlier pass touches it |
| `PeerDeadlines.NoOtherFails` | crates/relaygate-gateway-peer/src/transport/state.rs:118-166 | and an expiry pass touches no other stream: not one the other end opened, not one answered or ended |
| `PeerDeadlines.ExpirePass` | crates/relaygate-gateway-peer/src/transport/state.rs:104-166 | the expiry loop of the actor object is that pass |
| `PeerReleases.DrainIsDrops` | crates/relaygate-gateway-peer/src/transport/state.rs:254-273 | the drain of a failed transport is a run of single losses, one per live stream, after which no stream, no ready entry and none of their reservations is left |
| `PeerTransport.TransportActor.constructor` | crates/relaygate-gateway-peer/src/transport/state.rs:61-91 | a new actor is the empty value |
| `PeerTransport.TransportActor.FailTransport` | crates/relaygate-gateway-peer/src/transport/mod.rs:120-127 | the first failure reason wins |
| `PeerTransport.TransportActor.EnqueueStreamFrame` | crates/relaygate-gateway-peer/src/transport/state.rs:280-312 | the queued, idempotent and refused cases, with the ready index kept exact |
| `PeerTransport.TransportActor.FinishStream` | crates/relaygate-gateway-peer/src/transport/state.rs:234-252 | stream, ready entry, reservation and count leave together, with one StreamEnded |
| `PeerTransport.TransportActor.Open` | crates/relaygate-gateway-peer/src/transport/command.rs:60-108 | the OPEN command: reply and new state as the value model, every failure path included |
| `PeerTransport.TransportActor.HandleOpen` | crates/relaygate-gateway-peer/src/transport/command.rs:20-58 | ... with the AttemptEnded notice when it fails |
| `PeerTransport.TransportActor.Cancel` | crates/relaygate-gateway-peer/src/transport/command.rs:110-123 | resets the lowest stream owned by the identity and answers as that reset does; without one nothing happens |
| `PeerTransport.TransportActor.SendOpened` | crates/relaygate-gateway-peer/src/transport/command.rs:125-160 | new state and reply are those of the value model for OPENED |
| `PeerTransport.TransportActor.SendFailed` | crates/relaygate-gateway-peer/src/transport/command.rs:162-198 | the same for FAILED; a full queue fails the transport |
| `PeerTransport.TransportActor.SendData` | crates/relaygate-gateway-peer/src/transport/command.rs:200-228 | the same for DATA: accepted exactly when queued |
| `PeerTransport.TransportActor.SendFin` | crates/relaygate-gateway-peer/src/transport/command.rs:230-259 | the same for FIN, terminal when the other side has finished; a refused FIN does not half-close |
| `PeerTransport.TransportActor.SendClose` | crates/relaygate-gateway-peer/src/transport/command.rs:261-290 | the same for CLOSE, which becomes a RESET before the stream is open |
| `PeerTransport.TransportActor.SendReset` | crates/relaygate-gateway-peer/src/transport/command.rs:292-321 | the same for RESET |
| `PeerTransport.TransportActor.ReceiveOpen` | crates/relaygate-gateway-peer/src/transport/inbound.rs:91-160 | the remote OPEN: guard, gateway check, stream limit, identity reservation, in that order |
| `PeerTransport.TransportActor.ReceiveOpened` | crates/relaygate-gateway-peer/src/transport/inbound.rs:162-193 | new state and events are those of the value model for an inbound OPENED |
| `PeerTransport.TransportActor.ReceiveFailed` | crates/relaygate-gateway-peer/src/transport/inbound.rs:195-224 | the same for FAILED |
| `PeerTransport.TransportActor.ReceiveData` | crates/relaygate-gateway-peer/src/transport/inbound.rs:226-243 | the same for DATA |
| `PeerTransport.TransportActor.ReceiveFin` | crates/relaygate-gateway-peer/src/transport/inbound.rs:245-276 | the same for FIN, including departure when the queue is empty |
| `PeerTransport.TransportActor.ReceiveClose` | crates/relaygate-gateway-peer/src/transport/inbound.rs:278-295 | the same for CLOSE |
| `PeerTransport.TransportActor.ReceiveReset` | crates/relaygate-gateway-peer/src/transport/inbound.rs:297-306 | the same for RESET |
| `PeerTransport.TransportActor.RejectRemoteOpen` | crates/relaygate-gateway-peer/src/transport/inbound.rs:308-316 | a refusal goes straight to the writer or fails the transport |
| `PeerTransport.TransportActor.ProtocolReset` | crates/relaygate-gateway-peer/src/transport/inbound.rs:318-327 | a protocol error resets the stream and emits the terminal event only if the reset was queued |
| `PeerTransport.TransportActor.EmitTerminalReset` | crates/relaygate-gateway-peer/src/transport/inbound.rs:329-355 | an unopened local stream fails, any other is reset, and it leaves |
| `PeerTransport.TransportActor.HandleFrame` | crates/relaygate-gateway-peer/src/transport/inbound.rs:20-89 | dispatch of every frame kind; the result says whether the read loop goes on |
| `PeerTransport.TransportActor.ExpireOpenDeadlines` | crates/relaygate-gateway-peer/src/transport/state.rs:118-166 | the loop equals one expiry per due stream in ascending order, stopping at a transport failure |
| `PeerTransport.TransportActor.DrainLosses` | crates/relaygate-gateway-peer/src/transport/state.rs:254-273 | every live stream is listed once with its owner and progress, in ascending order, and its reservation given back |
| `PeerTransport.TransportActor.FlushPass` | crates/relaygate-gateway-peer/src/transport/state.rs:169-209 | one pass over the ready index serves a prefix of the simple ascending pass over the whole stream map, all of it unless the writer refuses, and finds exactly the streams whose terminal frame left |
| `PeerTransport.TransportActor.FlushStreamQueues` | crates/relaygate-gateway-peer/src/transport/state.rs:168-221 | for any writer behaviour the writer gets exactly the frames of a prefix of the simple round-robin schedule, in that order, all of it unless it refuses a frame; each stream loses exactly those frames from the front; exactly the spent streams end; the loop terminates |
| `PeerTransport.ActionsAreStable` | crates/relaygate-gateway-peer/src/transport/state.rs:168-221 | every property that each action of the actor keeps is one that the flush loop and the writer must keep too: together with `FlushStreamQueues`, a flush preserves whatever the action machine preserves |
| `FlushOrder.ScheduleCovers` | crates/relaygate-gateway-peer/src/transport/state.rs:168-221 | the schedule gives every queued frame exactly one turn |
| `FlushOrder.ScheduleFair` | crates/relaygate-gateway-peer/src/transport/state.rs:174-187 | at no point is a stream that still has frames more than one turn behind any other |
| `FlushOrder.ServedExactly` | crates/relaygate-gateway-peer/src/transport/state.rs:173-187 | a flush serves a ready stream if and only if it takes more turns than there are ready streams below it; so those below can keep it waiting from flush to flush |
| `FlushOrder.FramesFifo` | crates/relaygate-gateway-peer/src/transport/state.rs:184-187 | each stream's frames leave first in, first out |
| `FlushOrder.ScheduleIgnoresEmpty` | crates/relaygate-gateway-peer/src/transport/state.rs:173-187 | streams with nothing to send do not influence the order, so the ready index may stand for the full map |
| `RouteModel.BuildSnapshot` | crates/relaygate-route-table/src/model.rs:131-164 | a snapshot is built if and only if the entries are nonempty and distinct in identity and in session and Destination, and it files exactly them |
| `RouteTable.AnswerOk` | crates/relaygate-route-table/src/shard.rs:105-244 | every call keeps the table sound: bindings filed and in scope, leases never shared |
| `RouteTable.ReachableOk` | crates/relaygate-route-table/src/shard.rs:105-317 | hence every table reachable by any sequence of calls and of sweeps (by RESOLVE or the expiry timer) is sound |
| `RouteTable.AnswersAreTrue` | crates/relaygate-route-table/src/shard.rs:435-441 | an acknowledgement names the lease, revision and remaining time the table then holds, an acknowledged Update the bindings too; Deregistered means gone; a refusal changes nothing but expired leases |
| `RouteTable.OthersUntouched` | crates/relaygate-route-table/src/shard.rs:319-328 | a call touches its own key only, and nothing when the caller is not the key's Gateway |
| `RouteAnswers.NotEntitled` | crates/relaygate-route-table/src/shard.rs:297-387 | which error a call gets that names another Gateway, another directory generation, another shard, or a binding outside its session and shard; the table stays as it was, expired leases included |
| `RouteAnswers.RegisterAnswered` | crates/relaygate-route-table/src/shard.rs:105-136 | an entitled REGISTER returns a live lease unchanged, else grants one without bindings, else (no expressible deadline) DeadlineOverflow; other keys only lose expired leases |
| `RouteAnswers.UpdateAnswered` | crates/relaygate-route-table/src/shard.rs:139-192 | an entitled UPDATE is acknowledged if and only if it has the live lease and either the first or a higher revision that changes no binding it keeps, or repeats revision and snapshot; otherwise FailedPrecondition and nothing changed |
| `RouteAnswers.KeepAliveAnswered` | crates/relaygate-route-table/src/shard.rs:194-219 | an entitled KEEP_ALIVE with the live lease moves only the deadline; otherwise which error, and nothing changed |
| `RouteAnswers.DeregisterAnswered` | crates/relaygate-route-table/src/shard.rs:221-244 | an entitled DEREGISTER removes the key or finds it gone, unless the lease is another's |
| `RouteAnswers.BindingsFromUpdate` | crates/relaygate-route-table/src/shard.rs:139-192 | in every run a registration holds exactly the lease, revision and snapshot of the last UPDATE that was acknowledged for it, which its own Gateway sent |
| `RouteAnswers.NothingBeforeUpdate` | crates/relaygate-route-table/src/shard.rs:121-133 | and one without an acknowledged UPDATE holds nothing |
| `RouteAnswers.ResolvedBindingsWereSent` | crates/relaygate-route-table/src/shard.rs:246-265 | in every run each binding a lookup returns was sent, as it is, by the Gateway it names, and no later UPDATE replaced it |
| `RouteTable.OneHolder` | crates/relaygate-route-table/src/shard.rs:339-356 | derived from validation: each binding identity can sit in one registration only |
| `RouteTable.OnlyGrantsExtend` | crates/relaygate-route-table/src/shard.rs:117-219 | after any call each registration has the lease and deadline it had, unless the call registered it anew or kept it alive: repeated Register and Update never extend a lease |
| `RouteTable.DeadlineFromGrant` | crates/relaygate-route-table/src/shard.rs:117-219 | in every run of calls and sweeps each deadline lies one full lease past a grant, and no later grant moved it |
| `RouteTable.ResolvedBindingsAreRecent` | crates/relaygate-route-table/src/shard.rs:246-265 | in every run of calls and sweeps a binding resolved at `now` belongs to a registration granted a lease strictly later than `now` minus the lease length |
| `RouteShard.RouteTableShard.New` | crates/relaygate-route-table/src/shard.rs:62-83 | succeeds exactly when the directory knows the shard, and then gives an empty shard with exact, empty indexes |
| `RouteShard.RouteTableShard.InsertExpiry` | crates/relaygate-route-table/src/shard.rs:443-455 | adds one expiry record and counts it only if it is new |
| `RouteShard.RouteTableShard.RemoveExpiry` | crates/relaygate-route-table/src/shard.rs:457-473 | removes one record, its bucket when empty, and never underflows |
| `RouteShard.RouteTableShard.InsertBindings` | crates/relaygate-route-table/src/shard.rs:485-495 | the grouping by Destination stays exact for the bindings added |
| `RouteShard.RouteTableShard.RemoveBindings` | crates/relaygate-route-table/src/shard.rs:497-513 | the grouping stays exact for the bindings left, with no empty group |
| `RouteShard.RouteTableShard.RemoveRegistration` | crates/relaygate-route-table/src/shard.rs:475-483 | one registration leaves every index and counter |
| `RouteShard.RouteTableShard.ExpireBucket` | crates/relaygate-route-table/src/shard.rs:286-302 | every record of a popped bucket is current, so its bucket empties exactly the registrations due then |
| `RouteShard.RouteTableShard.ExpireDue` | crates/relaygate-route-table/src/shard.rs:280-305 | removes exactly the registrations with deadline at or before `now`, returns their number, terminates, keeps all indexes exact |
| `RouteShard.RouteTableShard.Register` | crates/relaygate-route-table/src/shard.rs:105-136 | answers as the plain map does and keeps every index and counter exact |
| `RouteShard.RouteTableShard.Update` | crates/relaygate-route-table/src/shard.rs:139-192 | the same, with all revision and identity-stability refusals |
| `RouteShard.RouteTableShard.KeepAlive` | crates/relaygate-route-table/src/shard.rs:194-219 | the same; the expiry record moves with the deadline |
| `RouteShard.RouteTableShard.Deregister` | crates/relaygate-route-table/src/shard.rs:221-244 | the same |
| `RouteShard.RouteTableShard.Resolve` | crates/relaygate-route-table/src/shard.rs:246-265 | returns exactly the unexpired bindings of the Destination, NotFound exactly when there are none, and refuses a wrong generation or authority without touching the table |
| `RouteShard.RouteTableShard.NextExpiryDeadline` | crates/relaygate-route-table/src/shard.rs:273-277 | the least deadline of all registrations, none exactly when there is none |
| `RegistrationObject.RegistrationState.constructor` | crates/relaygate-gateway-routing/src/lifecycle.rs:90-114 | a new registration wants its snapshot and holds nothing |
| `RegistrationObject.RegistrationState.Publish` | crates/relaygate-gateway-routing/src/lifecycle.rs:116-146 | new state as the value model; stale versions are ignored |
| `RegistrationObject.RegistrationState.BeginNext` | crates/relaygate-gateway-routing/src/lifecycle.rs:217-273 | chooses Register, KeepAlive, Update, Deregister or nothing, with fresh attempt ids and both exhaustion errors |
| `RegistrationObject.RegistrationState.RegisterSucceeded` | crates/relaygate-gateway-routing/src/lifecycle.rs:275-295 | takes the lease only from the pending ticket's own answer at the current version |
| `RegistrationObject.RegistrationState.UpdateSucceeded` | crates/relaygate-gateway-routing/src/lifecycle.rs:297-330 | remembers an accepted revision even if the snapshot has moved on; Synced only if it has not |
| `RegistrationObject.RegistrationState.KeepAliveSucceeded` | crates/relaygate-gateway-routing/src/lifecycle.rs:332-353 | renews the local times and ends re-validation |
| `RegistrationObject.RegistrationState.PreconditionFailed` | crates/relaygate-gateway-routing/src/lifecycle.rs:358-385 | the first failure probes, the second is terminal |
| `RegistrationObject.RegistrationState.TransientFailure` | crates/relaygate-gateway-routing/src/lifecycle.rs:387-394 | backs off and doubles the delay up to its maximum |
| `RegistrationObject.RegistrationState.TerminalFailure` | crates/relaygate-gateway-routing/src/lifecycle.rs:396-401 | gives up on the pending ticket's failure |
| `RegistrationObject.RegistrationState.ConnectionLost` | crates/relaygate-gateway-routing/src/lifecycle.rs:403-409 | a held lease must be validated again |
| `RegistrationObject.RegistrationState.MarkTerminal` | crates/relaygate-gateway-routing/src/lifecycle.rs:411-421 | drops the lease too when the session is gone |
| `RegistrationObject.RegistrationState.FinishDeregister` | crates/relaygate-gateway-routing/src/lifecycle.rs:431-439 | forgets the lease |
| `RegistrationObject.RegistrationState.TakePending` | crates/relaygate-gateway-routing/src/lifecycle.rs:445-451 | consumes the ticket; the answer counts only under the lease it was sent for |
| `RegistrationObject.RegistrationState.TakeCurrent` | crates/relaygate-gateway-routing/src/lifecycle.rs:441-443 | ... and only if nothing was published since |
| `Registration.RenewalInTime` | crates/relaygate-gateway-routing/src/lifecycle.rs:463-477 | a lease comes up for renewal after it was granted; and no later than it runs out if and only if it has any length and, where its end is not expressible, half of it is no longer than the 60-second fallback or not expressible either |
| `Registration.BackoffBounded` | crates/relaygate-gateway-routing/src/lifecycle.rs:387-394 | retry delays stay between the initial and the maximal one, and a stale ticket changes nothing |
| `Registration.PublishAndSynced` | crates/relaygate-gateway-routing/src/lifecycle.rs:116-146 | a stale publish changes nothing; a newer one is what is wanted from then on, and keeps Synced if and only if it wants the same |
| `Registration.PublishActsAtOnce` | crates/relaygate-gateway-routing/src/lifecycle.rs:116-146 | a changed wish is acted on at once; a given-up registration that is no longer wanted can be removed |
| `Registration.BeginsExactly` | crates/relaygate-gateway-routing/src/lifecycle.rs:217-273 | when no operation is begun, and which one is begun otherwise, with what version, lease and revision |
| `Registration.RetryPaced` | crates/relaygate-gateway-routing/src/lifecycle.rs:387-394 | after a passing failure nothing is begun until the delay has passed, and the next delay is twice as long, up to the maximum |
| `Registration.StaleAnswersAreIgnored` | crates/relaygate-gateway-routing/src/lifecycle.rs:441-451 | an answer that is not for the ticket under way, its lease and the current version changes nothing but the wait for it |
| `Registration.LossRevalidates` | crates/relaygate-gateway-routing/src/lifecycle.rs:403-409 | after a lost connection the registration is not Synced and its next operation asks for the lease at once |
| `Registration.SecondRefusalIsFinal` | crates/relaygate-gateway-routing/src/lifecycle.rs:358-385 | a first lease-bound refusal drops the lease and registers anew at once; a second one in a row gives up |
| `Registration.QuietForHalfTheLease` | crates/relaygate-gateway-routing/src/lifecycle.rs:297-330 | after an acknowledged UPDATE nothing is begun until half the lease has passed, and then a KEEP_ALIVE |
| `Registration.GrantIsTaken` | crates/relaygate-gateway-routing/src/lifecycle.rs:275-295 | a granted lease is taken with its revision and times, and the next operation is the UPDATE with the following revision and what is wanted |
| `Registration.RenewalIsTaken` | crates/relaygate-gateway-routing/src/lifecycle.rs:332-353 | a renewed lease keeps its revision and runs from now; the registration is then Synced if and only if it was up to date |
| `RegistrationProtocol.OneKeyView` | crates/relaygate-route-table/src/shard.rs:105-244 | the shard table watched at one key behaves as the slot of the protocol model; calls for other keys only sweep |
| `RegistrationProtocol.RevisionsWriteOnce` | crates/relaygate-route-table/src/shard.rs:155-191 | at the shard the revisions of one lease only grow, none is written twice, and no identity changes its binding |
| `RegistrationProtocol.NextInv` | crates/relaygate-gateway-routing/src/lifecycle.rs:116-451 | every step (publish, send, any delivery of any request ever sent, own answers, failures at any time, expiry at any time, re-creation) keeps the protocol invariant |
| `RegistrationProtocol.WantsTheLatest` | crates/relaygate-gateway-routing/src/lifecycle.rs:116-146 | in every run the client's version and snapshot are those of the first publish, re-creation or start with the highest version, read from the list of steps |
| `RegistrationProtocol.SyncedMeansSame` | crates/relaygate-gateway-routing/src/lifecycle.rs:151-175 | in every run, Synced with the shard holding the client's lease means equal revisions and, at the shard, exactly the bindings last published |
| `RegistrationWorker.WorkerRegistration.constructor` | crates/relaygate-gateway-routing/src/runtime/registration.rs:110-126 | a new registration is the client of a fresh system |
| `RegistrationWorker.WorkerRegistration.Publish` | crates/relaygate-gateway-routing/src/runtime/registration.rs:111-131 | the object takes the Publish step of its system and keeps the protocol invariant |
| `RegistrationWorker.WorkerRegistration.BeginNext` | crates/relaygate-gateway-routing/src/runtime/registration.rs:154-160 | the same for a new operation, whose ticket was never used before |
| `RegistrationWorker.WorkerRegistration.Complete` | crates/relaygate-gateway-routing/src/runtime/operation.rs:60-137 | every completion, current or of an earlier connection, is a step of the system: a refused Deregister drops the lease unless retrying can help, an answer of the wrong kind ends the registration |
| `RegistrationWorker.WorkerRegistration.ConnectionLost` | crates/relaygate-gateway-routing/src/runtime/registration.rs:180-187 | the same for a lost connection |
| `RegistrationWorker.WorkerRegistration.IsSynced` | crates/relaygate-gateway-routing/src/lifecycle.rs:151-175 | an object that reports Synced has, at a shard still holding its lease, exactly its revision and its bindings |
| `RegistrationConvergence.ConvergesExactly` | crates/relaygate-gateway-routing/src/lifecycle.rs:217-385 | with a responsive shard the number of exchanges until Synced is exactly `Distance`, and not fewer, from every settled state that is not doomed |
| `RegistrationConvergence.ConvergesUnlessDoomed` | crates/relaygate-gateway-routing/src/runtime/operation.rs:76-137 | from every desired, non-terminal state with nothing pending, four exchanges reach Synced if and only if the state is not doomed; a doomed one is terminal by then |
| `RegistrationConvergence.DoomedExactly` | crates/relaygate-gateway-routing/src/lifecycle.rs:358-385 | a doomed registration (a probe is out and the shard refuses the next lease-bound request, or the shard holds a conflicting binding) is never Synced, and is terminal exactly from its `Demise`th exchange on |
| `RegistrationConvergence.DoomedReachable` | crates/relaygate-gateway-routing/src/lifecycle.rs:358-385 | a run of the protocol leads to a doomed state: the shard forgets the registration, and again after the probe; one smooth exchange then ends it |
| `RegistrationConvergence.WorstCaseReachable` | crates/relaygate-gateway-routing/src/lifecycle.rs:358-385 | a run of the protocol leads to a state with a smooth run of four exchanges (KeepAlive, conflicting Update, Register probe, Update) that is Synced after the fourth and not before |
| `RegistrationConvergence.ExchangeIsRun` | crates/relaygate-gateway-routing/src/runtime/operation.rs:23-137 | an exchange is a run of the protocol: the request goes out, one copy arrives, the answer comes back |
| `RegistrationConvergence.DeregistersInOne` | crates/relaygate-gateway-routing/src/runtime/operation.rs:84-107 | an unwanted registration is gone after one exchange: removable at the client, and its lease no longer at the shard |
| `RegistrationConvergence.SyncedDelivers` | crates/relaygate-gateway-routing/src/lifecycle.rs:297-330 | in a reachable system the exchange that ends in Synced has put exactly the desired bindings at the shard |
| `Desired.DesiredStore.Commit` | crates/relaygate-gateway-routing/src/runtime/desired.rs:42-67 | one session's projection under a new version, or nothing when versions are exhausted |
| `Desired.DesiredStore.ShardViewAfter` | crates/relaygate-gateway-routing/src/runtime/desired.rs:72-106 | what changed after the observed version; removals handed out are forgotten |
| `Desired.ViewCatchesUp` | crates/relaygate-gateway-routing/src/runtime/desired.rs:72-106 | applying a view makes the worker's sessions exactly the store's, and every reported version is newer than what the worker held |
| `Desired.WorkerFollowsStore` | crates/relaygate-gateway-routing/src/runtime/registration.rs:98-133 | in every interleaving of commits and views, a worker that has just looked holds exactly the store's sessions of its shard |
| `Desired.WorkerHoldsLastCommitted` | crates/relaygate-gateway-routing/src/runtime/desired.rs:42-106 | in every run, a worker that has just looked holds of each session exactly what that session last committed for the shard, read from the list of steps |
| `Desired.RemovalsReportedOnce` | crates/relaygate-gateway-routing/src/runtime/desired.rs:100 | in every reachable state a removal that is handed out was never handed out before |
| `Desired.NextViewReports` | crates/relaygate-gateway-routing/src/runtime/desired.rs:40-105 | in every run, the first view of a shard after a session's last commit there reports the last entry of that commit: the new version and snapshot and no removal; or no change, a removal if the worker held it, and the commit's own version as the removal's if the session was wanted until then |
| `Projection.ProjectSession` | crates/relaygate-gateway-routing/src/projection.rs:21-66 | succeeds if and only if all bindings belong to the session, no two share a Destination and no two of one shard share an id; every configured shard then appears once and shows, under Gateway, session and binding id, with Destination and locator, exactly the bindings it is the authority of |
| `Projection.DistinctEverywhere` | crates/relaygate-route-table/src/model.rs:131-164 | all shards' entries are distinct if and only if no two bindings share a Destination, nor two of one shard an id |
| `Projection.BindingLandsOnce` | crates/relaygate-route-table/src/directory.rs:111-118 | exactly one shard shows each binding |
| `Projection.ProjectedInScope` | crates/relaygate-route-table/src/shard.rs:339-387 | every snapshot produced passes that shard's scope and authority validation |
| `ErrorCodes.CodesExact` | crates/relaygate-protocol/src/frame.rs:59-75 | error codes and their bytes are inverse to each other, both ways |
| `ErrorCodes.ObservationsExact` | crates/relaygate-protocol/src/frame.rs:95-102 | the same for observations |
| `BigEndian.BeRoundTrip` | crates/relaygate-protocol/src/codec.rs:425-435 | fixed-width big-endian numbers read back |
| `BigEndian.FromBeCanonical` | crates/relaygate-protocol/src/codec.rs:425-435 | ... and only one byte string reads as a given number |
| `WireFields.FieldRoundTrip` | crates/relaygate-gateway-peer/src/codec.rs:385-480 | each kind of field is read back as written, consuming exactly its bytes |
| `WireFields.FieldCanonical` | crates/relaygate-gateway-peer/src/codec.rs:385-480 | whatever a field reader accepts is what writing it again produces |
| `WireFraming.FrameRoundTrip` | crates/relaygate-gateway-peer/src/codec.rs:103-149 | a written frame is read back whatever follows it in the buffer |
| `WireFraming.PrefixNeedsMore` | crates/relaygate-gateway-peer/src/codec.rs:124-144 | a strict prefix of a frame asks for more |
| `WireFraming.FrameCanonical` | crates/relaygate-gateway-peer/src/codec.rs:299-370 | any accepted frame is well typed and re-encodes to the identical bytes |
| `WireStream.ChunksDoNotMatter` | crates/relaygate-gateway-peer/src/codec.rs:124-149 | for any bytes at all, valid or not, frames, error and leftover do not depend on how the input is cut, for any decoder that later bytes do not sway |
| `WireStream.GatherJoined` | crates/relaygate-gateway-peer/src/codec.rs:103-149 | frames written one after the other come out as exactly that list with nothing left |
| `PeerCodec.PeerRoundTrip` | crates/relaygate-gateway-peer/src/codec.rs:201-370 | every peer frame round-trips; strict prefixes ask for more |
| `PeerCodec.PeerCanonical` | crates/relaygate-gateway-peer/src/codec.rs:299-370 | every accepted peer frame re-encodes identically |
| `PeerCodec.PeerStreamRoundTrip` | crates/relaygate-gateway-peer/src/codec.rs:103-149 | the bytes of any list of encodable peer frames are read back as exactly that list |
| `PeerCodec.Receive` | crates/relaygate-gateway-peer/src/codec.rs:124-149 | repeated decoding of a buffer that grows chunk by chunk gets, for any bytes and any cutting, what one pass over all of them gets, and from sent frames exactly those |
| `PeerCodec.AnnouncedIsWritten` | crates/relaygate-gateway-peer/src/codec.rs:152-257 | the precomputed payload length is the number of bytes written, and it is withheld exactly when writing would fail |
| `PeerCodec.EncodeInto` | crates/relaygate-gateway-peer/src/codec.rs:103-117 | appends the frame, or leaves the buffer unchanged and says why |
| `PeerCodec.DecodeFrom` | crates/relaygate-gateway-peer/src/codec.rs:124-149 | takes exactly one frame off the buffer, nothing while more is needed |
| `PeerCodec.CanonicalKeyOnWire` | crates/relaygate-destination/src/destination.rs:39-48 | the canonical key is the namespace and name fields of OPEN |
| `PeerCodec.CanonicalKeyDecodes` | crates/relaygate-gateway-peer/src/codec.rs:313-321 | and reads back as exactly those two fields |
| `PeerCodec.CanonicalKeyInjective` | crates/relaygate-destination/src/destination.rs:34-48 | no two valid Destinations share a canonical key |
| `SdkCodec.SdkRoundTrip` | crates/relaygate-protocol/src/codec.rs:131-360 | every SDK frame round-trips; strict prefixes ask for more |
| `SdkCodec.SdkCanonical` | crates/relaygate-protocol/src/codec.rs:272-360 | every accepted SDK frame re-encodes identically |
| `SdkCodec.SdkStreamRoundTrip` | crates/relaygate-protocol/src/codec.rs:46-128 | the bytes of any list of encodable SDK frames are read back as exactly that list |
| `SdkCodec.Receive` | crates/relaygate-protocol/src/codec.rs:102-128 | repeated decoding of a buffer that grows chunk by chunk gets, for any bytes and any cutting, what one pass over all of them gets, and from sent frames exactly those |
| `SdkCodec.EncodeInto` | crates/relaygate-protocol/src/codec.rs:46-95 | appends the frame or leaves the buffer unchanged; the DATA fast path writes what the general path would |
| `SdkCodec.DecodeFrom` | crates/relaygate-protocol/src/codec.rs:102-128 | takes exactly one frame off the buffer, nothing while more is needed |
| `WireLayout.PeerEncodes` | crates/relaygate-gateway-peer/src/codec.rs:103-257 | for every frame and limit the encoder writes exactly the listed bytes (magic, version, kind byte, length, each field in order) or refuses with the listed error, which it does if and only if a text or the payload is too long |
| `WireLayout.SdkEncodes` | crates/relaygate-protocol/src/codec.rs:46-271 | the same for the SDK format |
| `WireLayout.BeIsNumber` | crates/relaygate-gateway-peer/src/codec.rs:401-412 | numbers are written most significant byte first |
| `WireLayout.CodesNumbered` | crates/relaygate-protocol/src/frame.rs:59-75 | error codes are numbered from one in the listed order |
| `Destinations.DisplayParses` | crates/relaygate-destination/src/destination.rs:51-86 | printing a valid Destination and parsing it gives it back |
| `Destinations.ParseDisplays` | crates/relaygate-destination/src/destination.rs:51-86 | only the printed form parses, and what parses is valid |
| `Destinations.NoSlash` | crates/relaygate-destination/src/name.rs:22-145 | neither part of a valid Destination contains the separator |
| `Destinations.NameExactly` | crates/relaygate-destination/src/name.rs:74-82 | a text is a name if and only if it has 1 to 253 lowercase letters, digits, hyphens and dots, a letter or digit at both ends and on both sides of every dot, and never 64 bytes in a row without a dot |
| `Destinations.NamespaceExactly` | crates/relaygate-destination/src/name.rs:22-30 | a text is a namespace if and only if it is such a name of at most 63 bytes without a dot |
| `Registry.LocalRegistry.Register` | crates/relaygate-gateway/src/registry.rs:22-46 | one binding per session and Destination: an existing one is returned and nothing changes, otherwise a new one enters all three indexes |
| `Registry.LocalRegistry.Find` | crates/relaygate-gateway/src/registry.rs:146-159 | the session's binding for the Destination, none exactly when there is none |
| `Registry.LocalRegistry.Remove` | crates/relaygate-gateway/src/registry.rs:161-187 | one binding leaves all indexes; the cursors kept are exactly those of Destinations that still have bindings |
| `Registry.LocalRegistry.RemoveOwned` | crates/relaygate-gateway/src/registry.rs:48-58 | only the owner can remove; cursors as above |
| `Registry.LocalRegistry.RemoveSession` | crates/relaygate-gateway/src/registry.rs:60-67 | exactly the session's bindings go, and are returned; cursors as above |
| `Registry.LocalRegistry.SelectExcluding` | crates/relaygate-gateway/src/registry.rs:98-121 | the eligible binding under the cursor, which advances with wrap-around |
| `Registry.LocalRegistry.SelectMany` | crates/relaygate-gateway/src/registry.rs:98-121 | n selections in a row return the n choices that the round-robin results speak of |
| `Registry.LocalRegistry.SelectRound` | crates/relaygate-gateway/src/registry.rs:98-121 | a round of selections on the registry reaches every eligible binding exactly once if and only if the cursor's wrap-around does not fall inside it |
| `Registry.EligibleExact` | crates/relaygate-gateway/src/registry.rs:104-108 | exactly the Destination's bindings of other sessions take part, each once |
| `Registry.RoundRobin` | crates/relaygate-gateway/src/registry.rs:113-120 | n consecutive selections among n eligible bindings are a rotation of them, each exactly once, for any cursor whose wrap-around does not fall inside the round |
| `Registry.RoundRobinExactly` | crates/relaygate-gateway/src/registry.rs:118-119 | ... and that condition is exact: the selections are each-once if and only if the cursor does not wrap within them or their number divides 2^64 |
| `RateLimit.TokenBucket.constructor` | crates/relaygate-gateway/src/rate_limit.rs:15-22 | a full bucket |
| `RateLimit.TokenBucket.HasCapacity` | crates/relaygate-gateway/src/rate_limit.rs:24-32 | credit as unbounded arithmetic would have it |
| `RateLimit.TokenBucket.TryTake` | crates/relaygate-gateway/src/rate_limit.rs:34-40 | takes one token exactly when there is one |
| `RateLimit.SaturationIsInvisible` | crates/relaygate-gateway/src/rate_limit.rs:25-29 | the saturating 128-bit arithmetic equals the unbounded ideal |
| `RateLimit.TakesWithinForward` | crates/relaygate-gateway/src/rate_limit.rs:24-40 | whatever the clock does, tokens taken times 10^9 never exceed burst times 10^9 plus rate times the nanoseconds the clock moved forward in all |
| `RateLimit.BurstExactly` | crates/relaygate-gateway/src/rate_limit.rs:24-40 | of takes at one moment exactly as many succeed as whole tokens have accrued since the last one, up to the capacity |
| `RateLimit.ForwardIsElapsed` | crates/relaygate-gateway/src/rate_limit.rs:25-27 | forward movement equals the time from first to last operation if and only if the clock never went back, and is more otherwise |
| `RateLimit.ForwardIsTight` | crates/relaygate-gateway/src/rate_limit.rs:24-40 | the bound in forward movement is met exactly by a new bucket and a run over any given times |
| `RateLimit.TakesWithinLimit` | crates/relaygate-gateway/src/rate_limit.rs:24-40 | with non-decreasing time, tokens taken times 10^9 never exceed burst times 10^9 plus rate times the nanoseconds from first to last |
| `RateLimit.LimitExactlyAt` | crates/relaygate-gateway/src/rate_limit.rs:24-40 | for each burst that no single move forward exceeds: every bucket with it keeps the limit in every run over given times if and only if those times never go back |
| `RateLimit.LimitExactly` | crates/relaygate-gateway/src/rate_limit.rs:24-40 | over all buckets, of any rate and burst: the limit is kept in every run over given times if and only if those times never go back |
| `RateLimit.LimitExactlyMade` | crates/relaygate-gateway/src/rate_limit.rs:15-40 | the same over the buckets the constructor makes from 64-bit rate and burst, for times that never jump ahead by 2^64 nanoseconds at once |
| `RateLimit.PollsDoNotMatter` | crates/relaygate-gateway/src/rate_limit.rs:24-32 | with non-decreasing time, extra capacity polls, wherever put, change no admission |
| `RateLimit.PollsExactly` | crates/relaygate-gateway/src/rate_limit.rs:24-32 | polls change no admission of any bucket in any run over given times if and only if those times, counted from the bucket's last update, never go back or never go forward |
| `RateLimit.PollBreaksAdmission` | crates/relaygate-gateway/src/rate_limit.rs:24-32 | an instance: a poll in the past between two takes lets the second through |
| `RateLimit.BackwardClockBreaksLimit` | crates/relaygate-gateway/src/rate_limit.rs:30 | an instance: two tokens at one moment from a burst of one, after the clock went back and forth |
| `GatewayRuns.NextExactly` | crates/relaygate-gateway/src/state.rs:461-525 | every event keeps the invariant if and only if the program's own assertions hold in it: each peer stream in use leads to its Pipe, the OPEN identities in use are exactly the disjoint union of those of Pipes and of committed attempts, the counters count, and every end is a live session |
| `GatewayRuns.AssertionsExactly` | crates/relaygate-gateway/src/state.rs:514-524 | when they hold, event by event: always for an incoming OPEN and for a new attempt; for a Pipe dialed here if and only if its identifier is unused, for an answered attempt also its stream |
| `GatewayRuns.TablesStayExact` | crates/relaygate-gateway/src/state/remote.rs:150-450 | in every run from a new Gateway in which each peer stream carries one OPEN identity and no peer's OPEN names a session of ours, no assertion fails and the invariant holds throughout |
| `GatewayRuns.SharedStreamFails` | crates/relaygate-gateway/src/state/remote.rs:273-276 | that is needed: once an incoming OPEN has taken the stream reserved for an attempt, the answer to the attempt violates an assertion |
| `GatewayRuns.NamedSessionFails` | crates/relaygate-gateway/src/state/remote.rs:319-330 | and so it does once an incoming OPEN has named the session and connection of an attempt |
| `GatewayRuns.FailureReachable` | crates/relaygate-gateway/src/state/remote.rs:150-450 | runs to such a violation exist for every stream and every OPEN of its peer |
| `GatewayRuns.DrainedMeansEmpty` | crates/relaygate-gateway/src/state.rs:455-459 | two counters at zero and no attempt if and only if all four tables are empty |
| `GatewayRuns.SessionLeavesNothing` | crates/relaygate-gateway/src/state/session.rs:55-143 | removing a session takes exactly its attempts and the Pipes it is an end of |
| `GatewayRuns.SessionFreesItsOpens` | crates/relaygate-gateway/src/state/session.rs:63-107 | and frees exactly the OPEN identities of those |
| `GatewayAnswers.PrepareAnswered` | crates/relaygate-gateway/src/state.rs:323-351 | a DIAL is admitted only with a connection id above all its session has used, and never while draining |
| `GatewayAnswers.DialRefused` | crates/relaygate-gateway/src/state/opening.rs:15-57 | a DIAL whose session is gone, or that meets a draining or full Gateway, leaves nothing behind |
| `GatewayAnswers.DialOffered` | crates/relaygate-gateway/src/state/opening.rs:58-65 | any other with a binding here becomes an offer from the dialer to that binding's session |
| `GatewayAnswers.DialAttempted` | crates/relaygate-gateway/src/state/opening.rs:66-110 | without one it becomes an attempt under this Gateway's OPEN identity, if there is room for attempts |
| `GatewayAnswers.RouteAnswered` | crates/relaygate-gateway/src/state/remote.rs:57-131 | a resolved route moves exactly the attempt that waits for it: to a peer, to an offer here, or to its end |
| `GatewayAnswers.CommitAnswered` | crates/relaygate-gateway/src/state/remote.rs:150-204 | a committed OPEN reserves its stream, unless stream or identity is in use |
| `GatewayAnswers.OpenedAnswered` | crates/relaygate-gateway/src/state/remote.rs:362-449 | OPENED ends exactly the attempt that waits for it, in a live Pipe if its session lives and the limit allows |
| `GatewayAnswers.OpenAnswered` | crates/relaygate-gateway/src/state/remote.rs:241-346 | an incoming OPEN to a draining or full Gateway, with another's identity, with anything in use or without its binding changes nothing; any other becomes an offer from that stream to the listener |
| `GatewayAnswers.AcceptAnswered` | crates/relaygate-gateway/src/state/opening.rs:209-264 | accepting makes an offer live; at the limit, or a second time, it costs the Pipe and all it had in use |
| `GatewayAnswers.OnlyAcceptorAccepts` | crates/relaygate-gateway/src/state/opening.rs:214-220 | nobody else's acceptance changes anything |
| `GatewayAnswers.LimitsKept` | crates/relaygate-gateway/src/state/opening.rs:38-57 | in every run, conforming or not, live Pipes, pending offers with attempts, and attempts stay within their limits |
| `GatewayAnswers.DrainingOnlyFinishes` | crates/relaygate-gateway/src/state.rs:441-459 | in every run of a draining Gateway, each DIAL, attempt and Pipe is one it had when draining began, or the Pipe of such an attempt |
| `GatewayObject.GatewayState.constructor` | crates/relaygate-gateway/src/state.rs:207-231 | empty tables, exact |
| `GatewayObject.GatewayState.IndexPeerPipe` | crates/relaygate-gateway/src/state.rs:514-524 | both reverse maps gain the Pipe's entries |
| `GatewayObject.GatewayState.InsertOffer` | crates/relaygate-gateway/src/state.rs:461-467 | an offered Pipe enters table, reverse maps and counters |
| `GatewayObject.GatewayState.InsertOpen` | crates/relaygate-gateway/src/state.rs:503-512 | the same for an open Pipe |
| `GatewayObject.GatewayState.PromoteOffer` | crates/relaygate-gateway/src/state.rs:489-501 | an offered Pipe becomes live, anything else is left alone |
| `GatewayObject.GatewayState.OfferAccepted` | crates/relaygate-gateway/src/state/opening.rs:209-264 | an acceptance promotes, removes or is a violation, as the value model says; it keeps all tables exact if and only if no assertion of the program fails in it |
| `GatewayObject.GatewayState.RemovePipe` | crates/relaygate-gateway/src/state.rs:469-487 | a Pipe leaves table, reverse maps and counters; it keeps all tables exact if and only if no assertion of the program fails in it |
| `GatewayObject.GatewayState.IsDrained` | crates/relaygate-gateway/src/state.rs:455-459 | true if and only if no Pipe and no remote attempt is left, and then no stream and no identity is in use |
| `GatewayObject.GatewayState.PrepareDial` | crates/relaygate-gateway/src/state.rs:323-351 | a connection id is admitted only if above all its session has used |
| `GatewayObject.GatewayState.Dial` | crates/relaygate-gateway/src/state/opening.rs:15-110 | a DIAL becomes a local offer or a remote attempt, within the limits; it keeps all tables exact if and only if no assertion of the program fails in it |
| `GatewayObject.GatewayState.RouteResolved` | crates/relaygate-gateway/src/state/remote.rs:57-131 | a resolving attempt ends, becomes a local offer, or goes on to a peer; it keeps all tables exact if and only if no assertion of the program fails in it |
| `GatewayObject.GatewayState.PeerOpenCommitted` | crates/relaygate-gateway/src/state/remote.rs:150-204 | a starting attempt reserves its stream, unless stream or identity is in use; it keeps all tables exact if and only if no assertion of the program fails in it |
| `GatewayObject.GatewayState.ReceivePeerOpen` | crates/relaygate-gateway/src/state/remote.rs:241-346 | an incoming OPEN becomes an offer if all guards pass; it keeps all tables exact if and only if no assertion of the program fails in it |
| `GatewayObject.GatewayState.PeerOpened` | crates/relaygate-gateway/src/state/remote.rs:362-449 | an answered attempt ends and becomes a live Pipe, if its session lives and the limit allows; it keeps all tables exact if and only if no assertion of the program fails in it |
| `GatewayObject.GatewayState.TakeRemoteAttempt` | crates/relaygate-gateway/src/state/remote.rs:574-578 | an attempt and its reservation leave together |
| `GatewayObject.GatewayState.RemoveSession` | crates/relaygate-gateway/src/state/session.rs:55-143 | both loops together remove the session's attempts and Pipes in closed form, whatever the order; it keeps all tables exact if and only if no assertion of the program fails in it |
| `Liveness.TransportLiveness.SyncStreamState` | crates/relaygate-gateway-peer/src/transport/liveness.rs:52-64 | the idle clock starts when streams end and stops when one begins |
| `Liveness.TransportLiveness.ObserveInbound` | crates/relaygate-gateway-peer/src/transport/liveness.rs:66-92 | only a matching PONG strictly before the deadline clears a probe |
| `Liveness.TransportLiveness.OnDeadline` | crates/relaygate-gateway-peer/src/transport/liveness.rs:110-142 | probe, timeout, retirement or nothing |
| `Liveness.TransportLiveness.MarkProbeCommitted` | crates/relaygate-gateway-peer/src/transport/liveness.rs:144-150 | the response window starts when the probe is committed |
| `Liveness.TurnKeepsProbe` | crates/relaygate-gateway-peer/src/transport/actor.rs:156-216 | with streams open, one turn of the loop leaves a probe alone, or answers it in time, or ends the loop: with a heartbeat timeout exactly when it finds the probe overdue, otherwise by shutdown, end of input, writer loss or a refused frame |
| `Liveness.ProbePersists` | crates/relaygate-gateway-peer/src/transport/actor.rs:76-216 | in every run with open streams an unanswered probe keeps nonce and deadline until it is found overdue or the loop ends for a cause of its own |
| `Liveness.OnlyTimelyPongClears` | crates/relaygate-gateway-peer/src/transport/liveness.rs:66-92 | what clears a probe is a PONG with its nonce before its deadline |
| `Liveness.TimelyPongClears` | crates/relaygate-gateway-peer/src/transport/liveness.rs:66-92 | and such a PONG does clear it and counts as hearing from the peer |
| `Liveness.QuietAfterReturn` | crates/relaygate-gateway-peer/src/transport/liveness.rs:52-64 | when streams run out a probe is dropped; after they return the next probe goes out a whole idle timeout later, not before |
| `Liveness.RetiredOnlyWhenIdle` | crates/relaygate-gateway-peer/src/transport/liveness.rs:110-127 | in every run retirement comes only after a whole retirement timeout without streams and with no command waiting |
| `Liveness.RetiredExactly` | crates/relaygate-gateway-peer/src/transport/liveness.rs:110-127 | in every run a transport is retired if and only if it wakes without streams or waiting commands a whole timeout after its idle clock was last set, read from the events |
| `Liveness.ProbedExactly` | crates/relaygate-gateway-peer/src/transport/liveness.rs:110-150 | with open streams and no probe out, the first wake a whole idle timeout after the peer was last heard sends one, with the next nonce and the response deadline counted from its commit; no earlier wake does |
| `Liveness.NoncesDiffer` | crates/relaygate-gateway-peer/src/transport/liveness.rs:130-142 | no nonce is zero, and two probes in a row have different ones |

## Left out

- Sockets, TLS, Tokio tasks and channels, the handshake exchange: wires are sequences, the writer is a bounded queue that a concurrent task may drain or close at any moment.
- SHA-256, UUID generation, UTF-8 checking, JSON and JWT: the Destination hash and the UTF-8 check are parameters; a drawn lease or binding identifier is an input that is not in use, and in the protocol never was.
- Clock readings are inputs. Overflow of an Instant is modelled where the program handles it (`DeadlineOverflow`, the 60-second fallback), not where it would panic.
- Sizes are unbounded naturals except where the source checks or wraps them: revisions, attempt ids, desired versions, nonces, the selection cursor, 16- and 32-bit lengths, 128-bit credit.
- Notices to a manager that has gone away (`emit` on a closed channel) and poisoned locks.
- Defensive branches that the invariants rule out: a ready stream that is not in the map or has an empty queue, a stream without an owner, an authority shard absent from the directory.
- Wording of diagnostics: a parameter of the peer actor's configuration; error values elsewhere carry their kind only.
- `RelayStream`, `StreamIdAllocator` and `RemoteStreamGuard`: their fields are part of the actor's state and are updated as values.
- `PayloadReader` and `encode_payload`: fields are read and written as values; the buffers that encode and decode change in place are objects.
- The authority hash takes a Destination rather than its canonical key; that the key is injective is proved in `PeerCodec.CanonicalKeyInjective`.
- Projection.ProjectSession: lists shards in directory order; the program lists them in the order of their identifiers.
- Registry.LocalRegistry.RemoveSession: returns the removed bindings as a map, since their order has no meaning.
- RouteShard.RouteTableShard.Resolve: returns the bindings by identity, since their order has no meaning.
- GatewayObject.GatewayState: only the fields of a Pipe and of an attempt that the tables and counters depend on, and not the frames an event sends; that the registry or the RouteTable has a binding, and that a DIAL is authorized, are inputs.
- `bindings_for_session`, `exact`, `BindingSet::from_entries`, `stats`, `is_descendant_of`, staggered intervals and other single-branch members.
- The frames the Gateway answers with, delivers and relays, its offer timeouts, the peer manager, the routing worker's connection handling, the RouteTable transport and its DTOs, the SDK, configuration, metrics, examples and tools.
