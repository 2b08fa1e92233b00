# Ulcer control plane: a verified model

Ulcer's HOST runs a small distributed protocol. A connection hub decides which agent stream may act for an instance; a
transactional store holds instance records, a traffic ledger, an event ledger and the operator's credentials; agents
reconcile towards the desired state they are sent; browsers follow an event stream. All of these move concurrently. This
project models them and proves what holds in every interleaving.

Two forms are used side by side. Code that updates fields in place is a class whose methods are proved against a function on
values (`Hub`, `Meters`, `AgentState`, `EventLedger`, `EventBus`, `Auth`, `Limiter`). Concurrency is a step machine over those
same functions: each store transaction, each hub critical section, each event append and each clock reading is one step, a
handler is a program counter, and a run is any sequence of steps of any number of handlers; a step that is not enabled changes
nothing. Theorems about runs hold for all such sequences. Beside the invariants stand reference definitions that do not use the
steps: what the calls so far say about each link, record, channel and stream, and what a request does on its own.

| file | content |
|---|---|
| `Records.dfy` | the instance record and its four mutations |
| `HubSpec.dfy`, `HubTrace.dfy`, `HubHistory.dfy`, `Hub.dfy` | the hub as a value and who owns its connections; whole runs of it; what it is after any run, read off the calls alone; the class over maps, channels and counters that refines it |
| `AgentState.dfy` | the agent's reconciliation |
| `Control.dfy`, `ControlSafety.dfy`, `Attachment.dfy`, `Finality.dfy` | Connect, deletion, SSH installation with rollback, setDesired and agents as one machine; attachment and deletion; which handler holds which link; what may still be logged after a deletion |
| `Requests.dfy`, `RecordRuns.dfy` | what each request does when nothing comes in between, from any reachable state; what a stored record says after any run |
| `Agreement.dfy`, `Generations.dfy`, `Convergence.dfy` | generations and digests between HOST and agent; what a generation number identifies over runs of any length, and that no report is ahead of it; when a stream has delivered the newest one |
| `Meters.dfy`, `MeterRuns.dfy` | one meter batch; conservation, replay and splitting over runs |
| `EventKey.dfy`, `EventLedger.dfy` | decimal keys and their order; the sliding window of 500 events |
| `EventBus.dfy`, `StreamRuns.dfy`, `StreamOrder.dfy`, `Subscriptions.dfy` | bounded subscriber channels; publishers and streams as a machine; what a client may rely on; what ends a stream |
| `Auth.dfy`, `AuthRuns.dfy`, `AuthAlone.dfy` | TOTP search and credential transactions; setup and login requests as a machine; what each of them does alone |
| `Limiter.dfy`, `Throttle.dfy`, `Schedules.dfy` | the login limiter in int64 nanoseconds; overlapping login requests as a machine; which orders of their steps are slowed down by every clock |

## Where the code and its documentation differ

- `readme.md:77` says that HOST sends a complete current snapshot after every reconnect. The code reads the snapshot before
  it activates the connection, so an update that commits and sends in between goes to the connection that the agent has left,
  and the new one never carries it (`Convergence.ReconnectMayMissUpdate`). `Convergence.ConvergedIff` says exactly when agent
  and HOST do agree.
- `readme.md:76` says that a generation can never refer to two digests. The counter is a uint64 that moves on commits: two
  reads show one generation if and only if a multiple of 2^64 commits lies between them (`Generations.SameGenerationIff`), so
  the claim holds below that (`Generations.GenerationNamesOnePair`) and fails there (`Generations.WrapRenames`).
  `Records.WrapBreaksConsistency` says what the wrap does to a record.
- `instance.enrolled`, `instance.ssh_install.started` and `instance.ssh_install.failed` are published outside every hub guard.
  They are exactly the kinds that can be logged after their instance's deletion (`Finality.FollowersAre`), and
  `Finality.NothingMoreIff` says when nothing more about it can be logged.
- Publish appends before it locks the bus, so overlapping publishers can fan out in the other order, and a live stream then
  skips an event for good (`StreamOrder.OverlapSkips`). `StreamOrder.LiveGaplessIff` says exactly which orders of fan-outs
  leave a stream without a gap.
- `internal/store/store.go:138-145` deletes the consumed TOTP step. A setup request that is still running when another one has
  completed setup does this after completion (`AuthRuns.LatePendingReplays`); `AuthRuns.ReplayIff` says exactly when an old step
  is accepted again.
- The limiter checks and counts in two critical sections, and each clock reading is taken before its section is entered
  (`internal/api/api.go:126`, `525`). So requests that overlap can all fail in one instant (`Throttle.OverlapEscapes`), and
  failures can be counted out of the order of their readings, which shortens a block (`Throttle.InversionShortens`).
  `Throttle.LetInIsSpaced` and `Throttle.NextIsSpacedIff` say which failures are spaced nevertheless, `Throttle.OverlapBound`
  what m overlapping requests with inversions of at most d leave of the bound, and `Schedules.SlowedDownIff` which schedules
  are slowed down by every clock; when failures are counted in the order of their readings, those are the ones that let some
  request in between a failure from the fifth on and the next one (`Schedules.InOrderSlowedDownIff`).

## Model

| member | source | states |
|---|---|---|
| Hub.Hub.constructor | internal/control/hub.go:28-34 | a new hub is valid and empty |
| Hub.Hub.Reserve | internal/control/hub.go:36-51 | refused exactly while a revocation of the identity is unreleased; otherwise a new open link waits; validity (table, channels, counters agree with the abstract hub) is kept |
| Hub.Hub.Activate | internal/control/hub.go:53-84 | succeeds exactly for a link that still waits and is not blocked; closes the link it replaces, or its own when it fails; no channel is closed twice |
| Hub.Hub.Detach | internal/control/hub.go:75-84 | true, and the slot freed and the link closed, exactly when this link still holds its identity's slot; otherwise nothing changes |
| Hub.Hub.Cancel | internal/control/hub.go:87-101 | the reservation stops waiting, is marked canceled and its connection closed; nothing else changes |
| Hub.Hub.Revoke | internal/control/hub.go:103-128 | blocks the identity, cancels every waiting reservation of it and closes its attached connection, in any order of the map |
| Hub.Hub.Release | internal/control/hub.go:118-127 | undoes one revocation, once; a second call does nothing |
| Hub.Hub.Send | internal/control/hub.go:151-165 | true exactly when an open attached connection had room, and then the message is last in its buffer; an attached connection that refuses is closed afterwards; nothing is sent on a closed channel |
| Hub.Hub.CloseConnection | internal/control/hub.go:174-180 | closes both channels at most once, whoever comes first |
| Hub.Hub.MayAct | internal/control/hub.go:130-138 | the guarded action runs exactly when no revocation of the identity is unreleased |
| Hub.Hub.MayActOnline | internal/control/hub.go:140-149 | additionally an open connection must be attached |
| Hub.UnreleasedMeansBlocked | internal/control/hub.go:39-39 | the block counter is positive if and only if some revocation of the identity is unreleased |
| Hub.UnreleasedAfterRelease | internal/control/hub.go:118-126 | releasing lowers the counter of that identity by one and no other |
| HubSpec.ReserveOwned | internal/control/hub.go:36-51 | ownership survives a reservation: every open link waits, or is attached under its own identity, never both |
| HubSpec.ActivateOwned | internal/control/hub.go:53-84 | ownership survives an activation, including the replacement of an attached link |
| HubSpec.RevokeOwned | internal/control/hub.go:103-116 | after a revocation nothing waits or is attached under the blocked identity |
| HubTrace.RunKeeps | internal/control/hub.go:36-180 | every run of hub calls keeps ownership; messages taken plus buffered are the accepted ones in order, at most 16 buffered; each link is activated at most once and each activation is attached still or ended exactly one way |
| HubTrace.ActivationsAccounted | internal/control/hub.go:68-84 | per identity: successful activations are the detach calls that returned true, plus links replaced, plus links revoked, plus one if one is attached |
| HubTrace.ClosedIsFinal | internal/control/hub.go:151-180 | a closed connection stays closed and accepts no message, whatever is called afterwards |
| HubHistory.RunIsHistory | internal/control/hub.go:36-180 | after any calls the hub is what they say: a link waits if it was neither activated, canceled nor revoked since it was handed out; it holds its slot if it was activated while waiting and not detached, revoked or replaced since; it is open until a named call closes it; its queue is what was sent to it less what was received; a revocation counts until its own closure is called |
| HubHistory.AnswersFollow | internal/control/hub.go:36-180 | what the next caller is told, from the calls before: reserved unless an unreleased revocation, activated if the link waits, detached if it holds its slot, sent if some open link holds the slot and fewer than sixteen messages wait |
| HubHistory.DetachFrees | internal/control/hub.go:75-84 | after any calls: a detachment ends an attached period if and only if the slot holds the link, which is then closed; no slot holds it afterwards and the other slots stay |
| Records.RecordStaysConsistent | internal/control/server.go:152-167 | under any mix of hello, desired, status (arbitrary agents) and offline mutations the applied generation never exceeds the desired one, and at an equal positive one the digests agree, fewer than 2^64 mutations |
| Records.WrapBreaksConsistency | internal/api/api.go:437-439 | when the generation wraps, that consistency is lost if and only if a generation other than zero had been reported |
| RecordRuns.UpdateTakes | internal/api/api.go:433-441 | in every run: an update whose digest is the record's leaves records and history alone; any other takes the next generation modulo 2^64 and its own digest and specification |
| RecordRuns.RunAlternates | internal/api/api.go:434-436 | in every run neighbouring committed updates differ in their digest, and the first is not empty |
| RecordRuns.RecordShowsLast | internal/control/server.go:49-57 | in every run a record shows the last accepted report with all its fields, "offline" since the last stream went, or "connected" since one came to an enrolled or offline record |
| AgentState.StateStore.Apply | internal/instance/state.go:53-91 | applies exactly the messages that do not regress, keep their digest and match it, when the store can be read and written; leaves the stored state alone otherwise |
| AgentState.NeverRegresses | internal/instance/state.go:58-63 | over any messages the agent's generation never falls, and it keeps the digest of a generation |
| AgentState.ResendAccepted | internal/instance/state.go:53-91 | applying the same message again is accepted and changes nothing |
| AgentState.ReportsLastApplied | internal/instance/state.go:53-91 | whatever an agent is sent, it reports the last message that could follow those before it, as stopped exactly when that specification asks for it and else as unsupported with the engine named, or that it is idle |
| ControlSafety.ActivateGood | internal/control/server.go:68-71 | a reservation that still waits when activated belongs to an enrolled instance |
| ControlSafety.RunSafe | internal/control/server.go:45-80 | every interleaving of streams, deletions, rollbacks, updates and agents keeps the invariant over hub, store, log and program counters |
| ControlSafety.AttachedImpliesEnrolled | internal/control/server.go:45-71 | in every run an attached connection's identity has a record in the store |
| ControlSafety.ReadBeforeDeletionNeverAttaches | internal/api/api.go:395-401 | a stream that read its record and finds it deleted before it activates never attaches, however the run goes on and though the revocation is released |
| ControlSafety.DeletionIsFinal | internal/api/api.go:395-413 | after `instance.deleted` the instance is gone, and no later entry for it is connected, disconnected, status, traffic, desired, installation succeeded or deleted |
| ControlSafety.DeleteGood | internal/sshinstall/install.go:144-166 | a record is removed, by the operator or by the rollback of an installation, only under the deleter's own unreleased revocation |
| Attachment.AttachedHasHandler | internal/control/server.go:68-80 | in every run an attached link is the token of exactly one handler, which has activated it and not yet detached |
| Attachment.DetachedForGood | internal/control/server.go:76-80 | a handler that detaches leaves its link in no slot however the run goes on, closed if it was attached, and goes on to log the departure exactly then |
| Requests.GuardAlone | internal/control/server.go:238-249 | a guarded section logs its entry, and marks the record offline if it is the departure, if and only if its instance is enrolled and not being deleted (and online for a finished installation); where the handler goes on then and otherwise |
| Requests.DeleteAlone | internal/api/api.go:395-413 | a deletion revokes, removes the record, logs that if there was one, and releases |
| Requests.CreateAlone | internal/api/api.go:287-298 | under an unused identity a record is stored and its enrolment logged, and an installation started if asked for |
| Requests.InstallEnds | internal/sshinstall/install.go:144-220 | an installation succeeds if nothing failed, it is not being deleted and its agent is online; otherwise its failure is logged and its record deleted under a revocation |
| Requests.UpdateAlone | internal/api/api.go:420-460 | an update commits, sends to the attached connection if there is one, and is logged unless the instance is being deleted; without a record nothing happens |
| Requests.ConnectAlone | internal/control/server.go:45-86 | a stream is refused while its instance is being deleted, canceled without a record, and else replaces what was attached, is logged, sends the record it read if that carries a desired state, and serves |
| Requests.LeaveAlone | internal/control/server.go:76-80 | a stream that ends detaches its link, marks the record offline and logs that if its link was still attached, and else does nothing |
| Requests.ReportAlone | internal/control/server.go:143-174 | an acceptable report is written and logged and the stream goes on unless the instance is being deleted; any other ends the stream and changes nothing |
| Requests.MetersAlone | internal/control/server.go:175-199 | a meter batch of an enrolled instance that is not being deleted is logged and the stream goes on; any other ends it |
| Requests.AgentReceives | internal/instance/client.go:133-148 | an agent applies a message if it may and then reports the new state on that stream, and else keeps its state and drops the stream |
| Requests.AgentActs | internal/instance/client.go:75-117 | a heartbeat reports the state again; a new stream starts with nothing consumed and keeps the state; a restart forgets it |
| Finality.NothingMoreIff | internal/api/api.go:395-413 | in every run with the deletion logged: no continuation logs anything more about the instance if and only if no handler of it still owes an enrolment, start or rollback entry |
| Finality.FollowersAre | internal/sshinstall/install.go:144-168 | a kind of entry can follow the deletion of its instance if and only if it is enrolled, installation started or installation failed |
| Finality.LateEntries | internal/sshinstall/install.go:161-168 | a run whose log is deleted, enrolled, started, failed for one identity |
| Agreement.RunAgrees | internal/api/api.go:433-452 | in every run of fewer than 2^64 steps records, snapshots, buffers, streams, agents and reports carry only pairs that HOST committed for their generation |
| Generations.RunNumbered | internal/api/api.go:433-441 | in every run of any length a record's generation is its number of commits modulo 2^64 and its desired state the last of them; which updates commit is `RecordRuns.UpdateTakes` |
| Generations.SameGenerationIff | internal/api/api.go:433-441 | two reads at any two points show one generation if and only if a multiple of 2^64 commits lies between them |
| Generations.GenerationNamesOnePair | internal/api/api.go:433-441 | with fewer than 2^64 commits of it in between, one generation shows one digest and specification |
| Generations.WrapRenames | internal/api/api.go:437-437 | a run with 2^64 commits in between in which one generation shows two digests |
| Generations.RunFollowed | internal/control/server.go:152-167 | in every run of the control machine, whatever peers report: as long as fewer than 2^64 updates of it were committed, a stored record's reported generation does not exceed the desired one, and at an equal positive one the digests agree |
| Agreement.PairWasCommitted | internal/api/api.go:433-441 | every pair in an identity's history was the record's desired state at some point of the run |
| Agreement.AppliedWasDesired | internal/instance/state.go:77-90 | what an agent has applied was HOST's desired state at an earlier point of the run |
| Agreement.HostNeverRefuses | internal/control/server.go:152-159 | while the instance is enrolled HOST accepts every report on the agent's own stream |
| Agreement.AgentNeverRegresses | internal/instance/client.go:133-145 | between restarts an agent's generation never falls, over any number of streams |
| Convergence.RunFlows | internal/control/server.go:129-141 | what a connection accepted is on the wire or still buffered, and the wire carries nothing else but the snapshot |
| Convergence.ConvergedIff | internal/control/server.go:49-86 | an agent that consumed its whole stream agrees with HOST if and only if the newest generation was its snapshot or accepted by that connection, or the agent already held it |
| Convergence.Converges | internal/api/api.go:450-452 | if every update after the snapshot was accepted on that connection, generation and digest agree once the stream is consumed |
| Convergence.ReconnectMayMissUpdate | internal/control/server.go:49-72 | a run in which an agent in step with HOST hangs up and dials again, has consumed its new stream and is behind, because the newest update was accepted by the connection it had left |
| Meters.Store.ApplyMeters | internal/store/store.go:299-345 | the loop over a batch, with real uint64 bounds, computes the batch function; a failing batch changes nothing, and a commit conflict leaves the rival's ledger and reports whether the instance is still there |
| Meters.Store.PutInstance | internal/store/store.go:195-203 | stores the record and nothing else |
| Meters.Store.Delete | internal/store/store.go:205-231 | eight attempts, each on the ledger that the rival of the one before has left; how they end is `Meters.DeleteContract` |
| Meters.DeleteContract | internal/store/store.go:205-231 | the first attempt without a rival answers with the record it read and leaves neither record nor acknowledgement of it and every other key as it was, if every attempt until then found one; an attempt that finds none answers NotFound, eight conflicts answer Conflict, and both leave the last rival's ledger |
| Meters.Store.UpdateInstance | internal/store/store.go:269-297 | the mutation is stored if the record exists, the mutation does not fail and the commit does not conflict; each of the three failures has its error |
| Meters.SuccNeverWraps | internal/store/store.go:317-322 | the wrap of `acknowledged+1` never decides the comparison |
| Meters.ScanAddsCredits | internal/store/store.go:313-329 | a batch adds exactly its credited deltas, and fails exactly when their sums do not fit into a uint64 |
| Meters.StopsWhereSmoothEnds | internal/store/store.go:317-322 | the loop consumes the longest prefix in which no sequence exceeds the running maximum by more than one, and ends at that maximum |
| Meters.CreditsInOrder | internal/store/store.go:317-328 | credited sequences are ack+1, ack+2, ..., each the first of its number in the batch |
| Meters.BatchContract | internal/store/store.go:307-345 | the whole declarative contract of a batch without nil entries, independent of the loop |
| MeterRuns.NilOnlyIfMet | internal/store/store.go:313-316 | a nil entry fails the batch if and only if no overflow and no gap comes before it; otherwise it is never looked at |
| MeterRuns.EnrolledIff | internal/store/store.go:195-231 | in every run an instance has a record exactly when the last enrolment or deletion of it was an enrolment, and it is that one's; exactly when it has none a batch is answered with NotFound, changing nothing |
| MeterRuns.TrafficConserved | internal/store/store.go:205-231 | over any enrolments, batches and deletions the totals are the deltas 1..ack of the enrolled instances, each once, plus the amounts frozen at deletions; acknowledgements exist only for enrolled instances |
| MeterRuns.CreditsWereSent | internal/store/store.go:313-329 | every credited delta was in some batch of that instance |
| MeterRuns.ReplayChangesNothing | internal/store/store.go:299-345 | re-sending any batch changes nothing and is answered as before |
| MeterRuns.SplitKeepsUp | internal/store/store.go:313-332 | a batch sent in two parts acknowledges no less, and leaves the identical ledger when the first part has no gap |
| MeterRuns.TotalsArePathIndependent | internal/store/store.go:299-345 | runs over the same per-instance logs that reach the same acknowledgements, now and at each deletion, have the same totals |
| EventKey.PadIsFixed | internal/store/store.go:425-427 | zero-padding the digits a number produces yields its fixed-width digits |
| EventKey.FixedInOrder | internal/store/store.go:425-427 | fixed-width digits are ordered byte by byte as the numbers are, and are injective |
| EventKey.KeysInOrder | internal/store/store.go:425-427 | for all uint64: event keys are distinct, of one length, and ordered as the sequences |
| EventKey.LessIsStrictOrder | internal/store/store.go:391-393 | the byte order that the iterator follows is a strict total order of all keys |
| EventKey.PrefixesConvex | internal/store/store.go:393-393 | keys under a prefix are an interval of the byte order, so the iterator leaves the prefix once |
| EventLedger.AppendHolds | internal/store/store.go:357-381 | the append transaction leaves exactly the last 500 events under the prefix |
| EventLedger.EventStore.AppendEvent | internal/store/store.go:357-381 | from any database: the counter plus one modulo 2^64 is the id and the new counter; after n < 2^64 appends the store holds exactly the last min(n, 500) events |
| EventLedger.WrapRestarts | internal/store/store.go:360-377 | the append after 2^64-1 others gets the id 0 and removes nothing, so the last 500 events stay beside it |
| EventLedger.NextEvent | internal/store/store.go:391-393 | the least key after the cursor is the next event's, and lies outside the prefix exactly at the end of the log |
| EventLedger.EventStore.EventsAfter | internal/store/store.go:383-405 | the iterator loop returns the specified window |
| EventLedger.WindowIsTail | internal/store/store.go:383-405 | for every `after` below 2^64-1: the stored events from max(after+1, n-499, 1) on, without holes, up to the newest or the limit (500 unless it is from 1 to 500) |
| EventLedger.LastIdReplays | internal/store/store.go:391-391 | `after` equal to 2^64-1 wraps to zero and returns what `after` zero returns |
| EventBus.Bus.Broadcast | internal/events/bus.go:26-36 | in any map order: each subscriber with room gets the event last in its open channel; each whose 32 slots are full is removed and its channel closed |
| EventBus.Bus.Publish | internal/events/bus.go:21-37 | an undisturbed call appends one event and hands that event to the subscribers; one whose append fails changes nothing |
| EventBus.Bus.Join | internal/events/bus.go:39-45 | subscribing hands out a fresh empty open channel under the next uint64 id |
| EventBus.Bus.Leave | internal/events/bus.go:47-54 | unsubscribing closes the channel unless the bus already has |
| EventBus.FanOutWired | internal/events/bus.go:26-35 | subscribers own distinct open channels of at most 32 events; the ones that stay are those with room |
| EventBus.Stream.WriteHistory | internal/api/api.go:487-490 | the loop writes the history and leaves the cursor at its last id |
| EventBus.Stream.WriteLive | internal/api/api.go:494-507 | the receive loop writes exactly the events above the cursor |
| EventBus.GaplessIff | internal/api/api.go:502-506 | for any sequence received: what is written has no gap if and only if each id's predecessor came before it |
| StreamRuns.ChannelHoldsFans | internal/events/bus.go:28-35 | in every run: what a handler received and what its channel still holds are, in order, the events of the fan-outs taken while it was subscribed and had room |
| Subscriptions.OpenIffSubscribed | internal/events/bus.go:39-54 | in every run the open channels are exactly the subscribed ones if and only if no stream was opened under an id still in use |
| Subscriptions.FewNeverCollide | internal/events/bus.go:41-43 | with up to 2^64 streams no id is used twice |
| Subscriptions.SubscribedIff | internal/events/bus.go:28-35 | in every run of up to 2^64 streams: a stream is subscribed, and its channel open, until it has left or an event found its 32 slots full |
| Subscriptions.WaitsIff | internal/api/api.go:494-501 | in every such run a stream in its loop receives the oldest event it was given and has not received; without one it waits while subscribed, and leaves its loop once it was dropped |
| Subscriptions.EveryExitUnsubscribes | internal/api/api.go:479-483 | whichever way a stream ends, its last step unsubscribes it and closes its channel and leaves all others alone |
| StreamOrder.IdsIncrease | internal/api/api.go:476-507 | in every interleaving the ids on one stream strictly increase, and each event is the stored one |
| StreamOrder.ResumesAfterHeader | internal/api/api.go:476-483 | nothing at or below Last-Event-ID is repeated if and only if it is below 2^64-1 or nothing was stored |
| StreamOrder.LiveGaplessIff | internal/api/api.go:494-507 | in every run the live part of a stream has no gap if and only if, in the order of the fan-outs that reached its channel, as far as it has received them, every id above the history comes after its predecessor |
| StreamOrder.SerialFans | internal/events/bus.go:21-37 | when Publish calls do not overlap, predecessors come first in that order |
| StreamOrder.NoGaps | internal/events/bus.go:21-37 | when Publish calls do not overlap, the ids on every stream are consecutive from the one after Last-Event-ID or the oldest kept, wherever it subscribes, reads and receives |
| StreamOrder.CaughtUp | internal/api/api.go:480-507 | then a subscribed stream with nothing in flight or buffered has written everything up to the newest event |
| StreamOrder.OverlapSkips | internal/events/bus.go:21-26 | a run of two overlapping publishers in which a stream never writes the first event |
| Auth.MatchTOTPStep | internal/auth/auth.go:150-171 | the loop over offsets 0, 1, -1 computes the specified step, with truncating division, skipped negative steps and generator errors |
| Auth.MatchIff | internal/auth/auth.go:150-171 | a step is returned if and only if the code typed is its code, it is the clock's own step, the next or the one before, and those tried earlier have other codes that can be made or lie before the epoch (section 5.2 of RFC 6238) |
| Auth.OnePeriodEachWay | internal/auth/auth.go:157-171 | a code made for a step at most one period away is answered with that step if the other two have other codes |
| Auth.OperatorStore.ConsumeTOTPStep | internal/store/store.go:108-136 | consumed, and stored, exactly when no step is stored or the stored one is smaller; a stored step that is not eight bytes long is an error and stays |
| Auth.OperatorStore.SetPendingTOTP | internal/store/store.go:138-145 | stores the pending secret and forgets the consumed step |
| Auth.OperatorStore.CompleteOperator | internal/store/store.go:76-102 | succeeds once: installs secret, step and recovery digests, and drops the pending secret |
| Auth.OperatorStore.ConsumeRecoveryCode | internal/store/store.go:147-161 | found exactly when the digest is left, and then it is removed |
| AuthRuns.StepsIncrease | internal/auth/auth.go:110-132 | over any interleaving and clocks accepted steps, the setup step included, strictly increase except across the setting of a pending secret |
| AuthRuns.EachStepOnce | internal/auth/auth.go:68-107 | when no pending secret is set after setup, accepted steps strictly increase over the whole run |
| AuthRuns.ReplayIff | internal/store/store.go:108-145 | in every reachable state with a completed setup a login that found a step is let in if and only if it is above the last accepted one or a pending secret has been set since; otherwise its code is tried as a recovery code and nothing else changes |
| AuthRuns.RecoveryOnce | internal/store/store.go:147-161 | each recovery digest is used at most once and only if issued; used plus left are the issued ones |
| AuthRuns.SessionsArePaid | internal/auth/auth.go:110-143 | sessions opened never exceed the one-time credentials spent, and equal them once no request is half-way |
| AuthRuns.CodesPerStretch | internal/auth/auth.go:150-171 | accepted codes whose clock readings lie in [t1, t2] number at most t2/30 - t1/30 + 3 |
| AuthAlone.LoginAlone | internal/auth/auth.go:110-143 | from every reachable state an undisturbed login opens exactly one session if its code stands for a usable step or is an unspent recovery code, in that order, and spends just that; otherwise it changes nothing |
| AuthAlone.BeginAlone | internal/api/api.go:106-135 | an undisturbed request to begin setup replaces the pending secret and forgets the consumed step if the token is right and setup incomplete; otherwise it changes nothing |
| AuthAlone.CompleteAlone | internal/auth/auth.go:68-107 | an undisturbed request to complete setup succeeds if and only if setup is incomplete, the token right, and the code one of the pending secret's; what it then installs, and that the token is void |
| AuthRuns.LatePendingReplays | internal/api/api.go:106-135 | a run of two overlapping setup requests in which the setup code opens a second session |
| Limiter.LoginLimiter.Allowed | internal/api/limiter.go:14-18 | allowed from the end of the recorded block on; what the block means is `Throttle.RefusedIff` |
| Limiter.LoginLimiter.Failed | internal/api/limiter.go:20-31 | counts and blocks with the int64 products written out; what they amount to is `Limiter.DelayIsCapped` and `Limiter.FirstWrap` |
| Limiter.LoginLimiter.Succeeded | internal/api/limiter.go:33-38 | clears failures and block |
| Limiter.DelayIsCapped | internal/api/limiter.go:24-29 | up to 307445738 failures the computed delay is min(30(n-4), 300) seconds |
| Limiter.FirstWrap | internal/api/limiter.go:25-29 | one failure later the product is negative and the recorded block is already over |
| Throttle.LetInIsSpaced | internal/api/limiter.go:14-31 | in every run of any number of overlapping requests: a failure whose request was let in after the k-th failure was counted, k >= 5, comes at least min(30(k-4), 300) seconds after it if k was the last one, or if the k-th reading is not later than the last one's |
| Throttle.NextIsSpacedIff | internal/api/limiter.go:14-31 | after every run: whoever is let in next and fails comes at least the k-th block after the k-th reading, whatever it reads, if and only if the clock or the end of the last block is past the end of the k-th |
| Throttle.InversionShortens | internal/api/api.go:160-160 | a run in which a request let in after the fifth failure fails 20 seconds after it, though its block is 30, because the sixth was counted with an earlier reading |
| Throttle.OverlapBound | internal/api/api.go:524-531 | with at most m requests let in at a time and no reading counted after one more than d later: the (k+m)-th failure comes at least the k-th block less d after the k-th, so the n-th at least the sum of every m-th block, each less d, after the fifth; no product wraps below 307445739 failures, nor in order within 2^63 ns for m up to nine |
| Throttle.PromptInverts | internal/api/api.go:160-160 | if each failure is counted within d of its reading, no inversion exceeds d |
| Throttle.TurnsInOrder | internal/api/api.go:524-531 | requests that take turns are counted in the order of their readings |
| Throttle.ThrottleBound | internal/api/limiter.go:14-38 | m = 1: when requests take turns every failure from the fifth on is followed by its whole block and the n-th comes at least the sum of all of them after the fifth, and no product wraps, over every run of less than 2^63 ns |
| Throttle.RefusedIff | internal/api/limiter.go:14-18 | a request is refused if and only if five failures in a row were counted before it and its reading lies before the end of the intended block of the last one counted |
| Schedules.PlanIsExact | internal/api/limiter.go:14-31 | what the order of the steps alone determines: a clock lets every request of a schedule in exactly when it keeps the schedule's let-in edges, and slows it down exactly when it keeps the gaps between its failures |
| Schedules.SlowedDownIff | internal/api/limiter.go:14-31 | every schedule: each clock that lets its requests in slows it down if and only if, between every failure from the fifth on and the next, the requests let in force the clock forward by that block; an unrealizable schedule has no such clock |
| Schedules.LetInIsSafe | internal/api/limiter.go:14-31 | in every schedule the next failure is slowed down if it reads the clock after a request that was let in since the previous one was counted |
| Schedules.InOrderSlowedDownIff | internal/api/limiter.go:14-31 | that is also necessary when failures are counted in the order of their readings: such a schedule is slowed down by every clock if and only if it holds for all of them |
| Throttle.BurstEscapes | internal/api/api.go:524-531 | a run in which any number of requests ask with one reading and all fail with it |
| Throttle.OverlapEscapes | internal/api/api.go:524-531 | in that run every failure from the sixth on comes too early for the bound of requests that take turns |

## Left out

- gRPC, TLS, certificates and SPIFFE matching: a stream's identity is taken as authorised.
- Badger itself: a transaction commits whole or has no effect, and transactions are serializable. Conflicts appear as
  failures (`fails` in the control machine) or as a rival's ledger (`rival` and `rivals` in `Meters.Store`). Key expiry, and
  with it session expiry, is the library's.
- JSON, SHA-256 and HMAC: the digest of a specification, the decoding of a specification, the code of a TOTP step and the digest
  of a recovery code are function parameters. Agreement theorems assume only that no specification hashes to the empty string.
- Go pointers and channels: reservations, connections and revocations are rows of a table that only grows, and pointer equality
  is equality of rows. Garbage and blocked goroutines are not modelled; waiting for a mutex is a step that does nothing yet.
- The handlers Connect, deleteInstance, setDesired, Install and the agent's receive loop are program counters of the step
  machine instead of methods, because what matters about them happens between their steps.
- Connect, after a message has left the queue, can learn of its closure before or after the message is written; the model keeps
  both outcomes through `fails`. The select loop's order of ready branches is arbitrary.
- Event payloads, names, LastSeenAt, AgentVersion and Capabilities of a record.
- The control machine appends to the event log directly; fan-out to subscribers is in the stream machine.
- The stream machine stops appending before the uint64 sequence would wrap; `EventLedger.WrapRestarts` is what the append does
  there.
- An agent's store error is a message that is not applied; in the control machine it is the agent hanging up.
- A transaction or clock that fails in `AuthRuns` is a request that takes no further step. Setup-token files, and the restart of
  HOST with a new token, are not modelled.
- SSH dialling, remote commands, uploads, timers and byte wiping in Install; only enrolment, commit and rollback remain.
- Heartbeat and backoff timing of the agent: it may report, hang up, dial and restart at any time.
- Meter-sending agents and quotas: no code for them here; batches come from an arbitrary environment.
- Validators, unit rendering, HTTP plumbing, cookies, dashboards, configuration, the web interface and deployment files would add
  only easy members.
