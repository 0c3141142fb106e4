# Verification of the fleet runtime's protocols

This project models the stateful protocols of the `pd_fleet` package and proves what they keep. Every part is a value
`State` (tables, records, files), a total function for each operation, and a recursion that applies a sequence of
operations to the initial state; theorems are about every such run. Where the program changes an object in place, a
class holds the same fields, its methods perform the operations step by step, and its `Valid()` ties the fields to the
recorded run, so every theorem about runs holds of the object.

| module | what it models |
|---|---|
| `FakeGateway` | tickets, associations, and bounded event windows with paged replay |
| `Journal`, `FleetBridge`, `BridgeDetach` | the bridge's transactional journal, bridge and gateway running together, and when a detach is journalled |
| `GatewaySubscription` | ingestion, outbox, acknowledgements and cursors of subscribers |
| `CheckpointStore` | the two-file checkpoint with a fault after any stage |
| `StateFiles` | the multi-file save with restoring |
| `FakeAdapter` | the session that executes at most once under any interleaving |
| `GatewayAuth` | one-use tickets and association states |
| `ParallelExecutor` | the bounded executor loop against any schedule of completions |
| `Lifecycle`, `Orchestrator` | task lifecycles, retries, waves, readiness and failure propagation |
| `EventLog`, `EventDiagnostics` | the append-only log, its diagnosis, and the projection of lifecycles onto it |
| `Json`, `Order`, `Permutations`, `Gates`, `Contracts` | serialization, sorting and the two canonical forms |

`dafny verify dfyconfig.toml` checks everything.

## What the proofs found

- A subscription read puts an acknowledged sequence back into the outbox when the cursor has not passed it
  (`GatewaySubscription.ReadRequeues`), and pruning above the ingestion cursor stops ingestion for good
  (`GatewaySubscription.OverPruneIsPermanent`).
- A cursor or replay window chosen by the caller can leave a hole in the journal below the stored cursor;
  `FleetBridge.DeliveryCompleteness` says exactly when.
- `CheckpointV2Store.save` seals contents that `load` rejects; one such checkpoint and one interrupted save lose the last
  good one (`CheckpointStore.UnreadableContentLosesCheckpoint`). Loading for a plan may return the older of two checkpoints.
- `EventLog.append` never checks the total size that reading enforces: 64 events of the greatest size jam the log
  permanently (`EventLog.SixtyFourLinesJamTheLog`), fewer never do. Its own check of the line length can never refuse.
  Diagnosis raises on more than 256 tasks (`EventDiagnostics.RaisesExactly`, `EventDiagnostics.TooManyTasksExample`).
- `TaskLifecycle.recover_orphan` is documented as recovering tasks without a recent heartbeat, but for a task that started
  fresh the heartbeat never matters (`Lifecycle.RecoveryIgnoresHeartbeat`). `mark_ready` from failed bypasses
  the retry limit (`Lifecycle.MarkReadyBypassesRetry`); `Lifecycle.StartLimitExactly` says exactly when the starts pass it.
  The orchestrator only calls `mark_ready` from pending.
- Resuming a running task breaks the history path (`Lifecycle.ResumedPathExactly`).
- With ids that sort against the dependencies, a run can end with a doomed task pending
  (`Orchestrator.RunLeavesDoomedPending`); `Orchestrator.PassSettlesExactly` says for which plans a pass can miss one.
- An uncaught interrupt between the two replacements of a state save leaves the files mixed
  (`StateFiles.InterruptLeavesMixed`); `StateFiles.TornByFaults` says for which faults they end torn.
- An event that reaches the gateway and not the bridge makes a later detach fail in the journal for good
  (`BridgeDetach.GapIsForever`).

## Assumptions

- SHA-256 and random references are injective: an event id is the tuple it is hashed from, fresh references are counted.
- Times are parameters. Python floats are `real` where they are times or sequences, and numeral texts inside JSON.
- Pattern-based checks are parameters: the checkpoint reader's acceptance of a content, the adapter's field checks, which
  labels are sensitive and how text is cleaned. `Contracts.Sane` states what is needed of the cleaner: what it returns
  is null or text that it leaves alone, and it leaves the schema version alone.
- SQLite transactions work on a copy of the tables that is assigned on success. Locked regions are single steps. The checks
  `execute` makes before it first takes the lock are part of its first step: a refusal takes effect where it reads,
  and what lets a request pass stays true, since the session's identity is fixed by `prepare` and stored answers are never
  removed or overwritten (`FakeAdapter.SameKeySameAnswer`).
- In `Orchestrator` the readiness rules of `validation.py` are modelled with numeric waves; gates passed, inputs and
  blocking conditions do not change during a run; the dispatcher is an arbitrary function of task and attempt.

## Model

| member | source | states |
|---|---|---|
| `FakeGateway.WindowIsTail` | scripts/pd_fleet/fake_gateway.py:317-327 | Over every run of the gateway, the retained events of an association are contiguous, end at its current sequence, and number min(sequence, retention). |
| `FakeGateway.PageExact` | scripts/pd_fleet/fake_gateway.py:343-371 | A page after position p is exactly the next stretch of the stream's full log; below the window it is a replay gap, at the end NO_NEW_EVENTS. Nothing is skipped or repeated. |
| `FakeGateway.PagedReplayComplete` | scripts/pd_fleet/fake_gateway.py:343-381 | From any position inside the window, for any page sizes, paging with the returned cursor until NO_NEW_EVENTS delivers exactly the rest of the log, once and in order. |
| `FakeGateway.SubscribeServes` | scripts/pd_fleet/fake_gateway.py:329-341 | A subscriber with a fitting cursor gets the page that follows its cursor, with the cursor advanced to the page's end. |
| `FakeGateway.FakeGateway.IssueActivation` | scripts/pd_fleet/fake_gateway.py:221-240 | The result and the new state are those of the issue operation: a fresh reference with its binding and expiry, or the refusal. |
| `FakeGateway.FakeGateway.ConsumeActivation` | scripts/pd_fleet/fake_gateway.py:258-290 | The new state and the result are those of the one-use consume transaction, refusal order included. |
| `FakeGateway.FakeGateway.Append` | scripts/pd_fleet/fake_gateway.py:317-327 | Numbers the event, retains it, drops what is older than the retention bound; the reference log grows by exactly that event. |
| `FakeGateway.FakeGateway.Heartbeat` | scripts/pd_fleet/fake_gateway.py:383-390 | The result and the new state are those of the heartbeat operation, which emits exactly one event for an open association. |
| `FakeGateway.FakeGateway.RevokeAssociation` | scripts/pd_fleet/fake_gateway.py:392-405 | The result and the new state are those of the revoke operation. |
| `FakeGateway.FakeGateway.ExpireStale` | scripts/pd_fleet/fake_gateway.py:407-415 | The loop ends every overdue association and touches no other. |
| `FakeGateway.FakeGateway.ReplayWindow` | scripts/pd_fleet/fake_gateway.py:373-381 | What replay returns is the page function the paging theorems are about. |
| `Journal.AcceptedStream` | scripts/pd_fleet/fleet_gateway_bridge.py:646-671 | A batch that passes validation is contiguous from the expected position, of one stream, inside the snapshot's sequence, and ends where its cursor says. |
| `Journal.JournalInvariant` | scripts/pd_fleet/fleet_gateway_bridge.py:139-223 | Over every run of the journal: event ids and sequences unique, journal and outbox rows aligned one to one, both capacity bounds kept, every row's association known. |
| `Journal.JournalMonotone` | scripts/pd_fleet/fleet_gateway_bridge.py:139-223 | Over every continuation of a run: rows stay, acknowledged rows stay acknowledged, association sequences and stored cursors never decrease, a terminal status stays terminal, epochs do not change. |
| `Journal.IdsAndKeysBiject` | scripts/pd_fleet/fleet_gateway_bridge.py:166-172 | In every reachable journal an event id and (association, epoch, sequence) determine each other and the row. |
| `Journal.IngestKeeps` | scripts/pd_fleet/fleet_gateway_bridge.py:174-223 | A committed ingest holds every delivered event, adds nothing else, and moves the cursor forward or not at all. |
| `Journal.RedeliveryIsNoOp` | scripts/pd_fleet/fleet_gateway_bridge.py:174-223 | Ingesting exactly the same batch again succeeds and changes nothing, acknowledgements included. |
| `Journal.TerminalRedeliveryIsNoOp` | scripts/pd_fleet/fleet_gateway_bridge.py:225-303 | The same for a batch of terminal events. |
| `Journal.TerminalIsFresh` | scripts/pd_fleet/fleet_gateway_bridge.py:225-303 | A checked terminal event clashes with no row, not even with one written earlier in the same batch. |
| `Journal.Store.IngestBatch` | scripts/pd_fleet/fleet_gateway_bridge.py:174-223 | All or nothing: the tables become the transaction's result, or stay exactly as they were when any step fails. |
| `Journal.Store.IngestRows` | scripts/pd_fleet/fleet_gateway_bridge.py:174-223 | The transaction's loop over a batch, row by row on the transaction's own tables, ends where the specification of the batch does, at the first failing row if there is one. |
| `Journal.Store.IngestEvents` | scripts/pd_fleet/fleet_gateway_bridge.py:225-303 | Terminal batches commit entirely or leave the tables untouched. |
| `Journal.Store.Ack` | scripts/pd_fleet/fleet_gateway_bridge.py:327-342 | Acknowledging succeeds exactly for a queued event, and the store follows the run. |
| `Journal.Store.Pending` | scripts/pd_fleet/fleet_gateway_bridge.py:344-354 | The unacknowledged events, oldest first. |
| `FleetBridge.JournalIsFaithful` | scripts/pd_fleet/fleet_gateway_bridge.py:508-547 | Bridge and gateway together, over every run including resets and foreign traffic: each journal row is exactly the event the gateway emitted in that epoch at that sequence. |
| `FleetBridge.JournalIsComplete` | scripts/pd_fleet/fleet_gateway_bridge.py:568-589 | Over every run of attach, snapshot, heartbeat, subscribe from the start, reconcile, detach and ack, with anything happening upstream: every sequence up to each stored cursor is journalled, although heartbeats arrive ahead of earlier events and are delivered again. |
| `FleetBridge.DeliveryCompleteness` | scripts/pd_fleet/fleet_gateway_bridge.py:508-566 | For a cursor or window chosen by the caller, the journal stays complete exactly when the stored cursor is already past the delivery or everything before its start is journalled. |
| `FleetBridge.SkippingWindowExample` | scripts/pd_fleet/fleet_gateway_bridge.py:549-566 | A concrete run in which a chosen replay window leaves a hole below the stored cursor. |
| `FleetBridge.ReconcileCatchesUp` | scripts/pd_fleet/fleet_gateway_bridge.py:587-589 | Reconcile never stalls: with the stored cursor inside the window and room in the journal it commits and the cursor moves to the next page boundary. |
| `FleetBridge.PageIsValid` | scripts/pd_fleet/fleet_gateway_bridge.py:646-671 | What the gateway serves passes every check the bridge makes. |
| `FleetBridge.FleetGatewayBridge.ValidateStream` | scripts/pd_fleet/fleet_gateway_bridge.py:646-671 | The loop over `previous` accepts exactly the contiguous batches of one stream. |
| `FleetBridge.FleetGatewayBridge.Subscribe` | scripts/pd_fleet/fleet_gateway_bridge.py:508-547 | The new system is the one the run theorems are about; a rejected delivery leaves the journal unchanged. |
| `FleetBridge.FleetGatewayBridge.Replay` | scripts/pd_fleet/fleet_gateway_bridge.py:549-566 | The same for a caller's replay window. |
| `FleetBridge.FleetGatewayBridge.Attach` | scripts/pd_fleet/fleet_gateway_bridge.py:417-496 | Attach consumes the activation and journals the snapshot; when it fails the journal is unchanged, when it succeeds it returns the consumed association. The object follows the run the theorems are about. |
| `FleetBridge.FleetGatewayBridge.Heartbeat` | scripts/pd_fleet/fleet_gateway_bridge.py:568-585 | Succeeds exactly when the gateway beats and the single event is ingested without a cursor; otherwise the journal is unchanged. |
| `FleetBridge.FleetGatewayBridge.Reconcile` | scripts/pd_fleet/fleet_gateway_bridge.py:587-589 | Succeeds exactly when refreshing the snapshot and continuing from the stored cursor both succeed; the object follows the run. |
| `FleetBridge.FleetGatewayBridge.Detach` | scripts/pd_fleet/fleet_gateway_bridge.py:591-625 | Succeeds exactly when the terminal events, the revocation's own or those still retained, are ingested; otherwise the journal is unchanged. |
| `BridgeDetach.FirstDetachExactly` | scripts/pd_fleet/fleet_gateway_bridge.py:225-303 | In every reachable state a first detach is journalled exactly when the journal knows that stream, the furthest of its stored snapshot, rows and cursors is the gateway's own position, and there is room. |
| `BridgeDetach.LaterDetachExactly` | scripts/pd_fleet/fleet_gateway_bridge.py:591-625 | A detach of an ended association is journalled exactly when its window can be listed and ends with the detachment, and that is journalled already or is the next position the journal expects and there is room. |
| `BridgeDetach.GapIsForever` | scripts/pd_fleet/fleet_gateway_bridge.py:265-267 | Once the gateway has moved past what the journal knows, this detach fails, and so does every later one, whatever operations and resets come in between. |
| `BridgeDetach.GapExample` | scripts/pd_fleet/fleet_gateway_bridge.py:591-625 | One heartbeat that reached the gateway and not the bridge makes an attached association undetachable for the journal. |
| `BridgeDetach.ReachableIsTidy` | scripts/pd_fleet/fake_gateway.py:392-415 | Over every run a stream holds at most one detachment, as its last event, and only once the association has ended. |
| `GatewaySubscription.CursorSoundness` | scripts/pd_fleet/gateway_subscription.py:173-219 | In every reachable state each sequence in (snapshot, cursor] was both delivered by a read and acknowledged. |
| `GatewaySubscription.NothingLost` | scripts/pd_fleet/gateway_subscription.py:173-219 | Each delivered sequence above the cursor is pending or already acknowledged. |
| `GatewaySubscription.CursorIsFrontier` | scripts/pd_fleet/gateway_subscription.py:202-219 | The outbox has no duplicates, lies above the cursor and at most at the delivery frontier, and its smallest element is the cursor's successor; when it is empty the cursor is at the frontier. |
| `GatewaySubscription.AckAdvances` | scripts/pd_fleet/gateway_subscription.py:202-219 | After a successful ack the cursor is the smallest pending sequence minus one, or everything delivered. |
| `GatewaySubscription.NoSilentGap` | scripts/pd_fleet/gateway_subscription.py:84-134 | History is exactly the contiguous range above the floor, ids and sequences are in bijection, and a delivering read yields exactly everything after the cursor. |
| `GatewaySubscription.ReadRequeues` | scripts/pd_fleet/gateway_subscription.py:193-196 | After a delivering read an acknowledged sequence is pending again exactly when the cursor has not passed it. |
| `GatewaySubscription.RequeueExample` | scripts/pd_fleet/gateway_subscription.py:193-196 | A run, for any identifiers, in which an acknowledged sequence is put back into the outbox. |
| `GatewaySubscription.DetachedForever` | scripts/pd_fleet/gateway_subscription.py:226-235 | A detached subscriber's record and empty outbox never change again, whatever follows. |
| `GatewaySubscription.DetachedIsRefused` | scripts/pd_fleet/gateway_subscription.py:226-235 | Every read, ack, heartbeat and resubscribe of a detached subscriber is refused. |
| `GatewaySubscription.AppendAccepted` | scripts/pd_fleet/gateway_subscription.py:115-128 | An append is accepted exactly when it is next in sequence, its id is new, and retention has not overtaken ingestion. |
| `GatewaySubscription.OverPruneIsPermanent` | scripts/pd_fleet/gateway_subscription.py:117-134 | Once the floor is above the ingestion cursor no continuation of the run ever grows the history again. |
| `GatewaySubscription.GatewaySubscriptionStore.Append` | scripts/pd_fleet/gateway_subscription.py:115-128 | The store's fields are where the recorded run leads, so every run theorem applies to the object. |
| `GatewaySubscription.GatewaySubscriptionStore.Read` | scripts/pd_fleet/gateway_subscription.py:173-200 | The batch, the outbox after the queueing loop and the refusal order are those of the run. |
| `GatewaySubscription.GatewaySubscriptionStore.Ack` | scripts/pd_fleet/gateway_subscription.py:202-219 | The cursor-advancing loop ends at the cursor the run theorems describe. |
| `GatewaySubscription.GatewaySubscriptionStore.Detach` | scripts/pd_fleet/gateway_subscription.py:226-235 | Empties the outbox and buries the subscriber. |
| `CheckpointStore.LoadReturnsLastExactly` | scripts/pd_fleet/checkpoint.py:457-541 | After any sequence of saves cut off at any stages, load returns the last envelope put in place exactly when the reader accepts its content. |
| `CheckpointStore.CrashSafety` | scripts/pd_fleet/checkpoint.py:457-541 | When all contents are ones the reader accepts, load always returns the last envelope whose replace happened, and generations strictly climb. |
| `CheckpointStore.LoadedGenerationsClimb` | scripts/pd_fleet/checkpoint.py:528-541 | However the run continues, what load returns never has a smaller generation. |
| `CheckpointStore.OneWriterPerGeneration` | scripts/pd_fleet/checkpoint.py:457-478 | Of two serialized writers proposing the same generation, the first succeeds, the second is refused and changes nothing. |
| `CheckpointStore.GenerationsAreUnique` | scripts/pd_fleet/checkpoint.py:457-505 | Over a whole run no generation is put in place twice. |
| `CheckpointStore.UnreadableExactly` | scripts/pd_fleet/checkpoint.py:507-541 | Exactly which runs leave a directory that cannot be loaded. |
| `CheckpointStore.UnreadableContentLosesCheckpoint` | scripts/pd_fleet/checkpoint.py:427-505 | The writer does not validate content: one checkpoint the reader rejects, then one interrupted save, lose the last good checkpoint. |
| `CheckpointStore.LoadForPlanExactly` | scripts/pd_fleet/checkpoint.py:528-541 | With an expected plan hash the filter comes first: the answer is the last checkpoint if it has the plan, and otherwise may be the one before it. |
| `CheckpointStore.CheckpointV2Store.SaveCheckpoint` | scripts/pd_fleet/checkpoint.py:457-505 | The stage-by-stage save changes the two files exactly as the crash theorems assume, and removes its temporary file. |
| `CheckpointStore.CheckpointV2Store.LoadCheckpoint` | scripts/pd_fleet/checkpoint.py:507-541 | Reads both files, filters, takes the newest; errors in the source's order. |
| `FakeAdapter.AtMostOneDispatch` | scripts/pd_fleet/fake_adapter.py:210-256 | Under every interleaving of reserve, commit and release steps with all other operations: dispatch_count is 1 exactly when a running event exists and 0 otherwise, and the whole event log is one of the fixed stories numbered from 1. |
| `FakeAdapter.OneWinner` | scripts/pd_fleet/fake_adapter.py:210-256 | The number of executes whose commit succeeds is the dispatch count, none or one. |
| `FakeAdapter.TerminalForever` | scripts/pd_fleet/fake_adapter.py:281-316 | A terminal session never changes status, events or dispatch count again. |
| `FakeAdapter.CancelBeforeCommit` | scripts/pd_fleet/fake_adapter.py:281-316 | A cancel that answers before any commit means no dispatch ever. |
| `FakeAdapter.SameKeySameAnswer` | scripts/pd_fleet/fake_adapter.py:459-474 | Two answers ever given for one (operation, idempotency key) are identical: stored results are never overwritten. |
| `FakeAdapter.AnswersStayTrue` | scripts/pd_fleet/fake_adapter.py:459-474 | Every answer given about how the session was prepared, executed, cancelled or cleaned up still describes the session in every later state. |
| `FakeAdapter.CleanedForever` | scripts/pd_fleet/fake_adapter.py:347-368 | The result of the first successful cleanup is kept for good. |
| `FakeAdapter.ObserveExact` | scripts/pd_fleet/fake_adapter.py:262-275 | In every reachable state an observation answers exactly when it is well formed, names the prepared session with its handle, and its cursor is readable; sequences are 1..n and the answer is exactly the rest of the log above the cursor. |
| `FakeAdapter.FakeAgentRuntime.Admit` | scripts/pd_fleet/fake_adapter.py:459-467 | Checks and replay in the source's order: format, fingerprint, identity, stored answer or conflict. |
| `FakeAdapter.FakeAgentRuntime.PrepareSession` | scripts/pd_fleet/fake_adapter.py:176-208 | The new record, handle and answer, or the refusal. |
| `FakeAdapter.FakeAgentRuntime.BeginExecute` | scripts/pd_fleet/fake_adapter.py:210-235 | Execute's first locked step: replay, conflict, in-progress, transition, or reservation. |
| `FakeAdapter.FakeAgentRuntime.CommitExecute` | scripts/pd_fleet/fake_adapter.py:240-253 | Execute's second locked step: re-checks the state, dispatches once, stores the answer. |
| `FakeAdapter.FakeAgentRuntime.CancelSession` | scripts/pd_fleet/fake_adapter.py:281-316 | Cancels, repeats the end of a cancelled or failed session, or refuses a succeeded one. |
| `FakeAdapter.FakeAgentRuntime.CleanUp` | scripts/pd_fleet/fake_adapter.py:347-368 | Cleans a terminal session, repeating the first successful result. |
| `FakeAdapter.FakeAgentRuntime.ObserveEvents` | scripts/pd_fleet/fake_adapter.py:262-275 | Refuses in the order envelope, missing session or lineage, handle, cursor; otherwise gives the page the exactness lemma describes. |
| `GatewayAuth.CommitsOnce` | scripts/pd_fleet/gateway_auth.py:238-306 | Over every run a ticket commits at most once, and exactly once when it is consumed. |
| `GatewayAuth.SettledForever` | scripts/pd_fleet/gateway_auth.py:205-212 | A ticket that is not issued any more never changes again. |
| `GatewayAuth.AcceptedExactly` | scripts/pd_fleet/gateway_auth.py:246-306 | A presentation is accepted exactly when the ticket exists, all bindings and the purpose match, and it is consumed or issued and not yet expired. |
| `GatewayAuth.CommittedIsIdempotent` | scripts/pd_fleet/gateway_auth.py:277-286 | After a commit every correctly bound consume at any later time gives the same result and changes nothing at all. |
| `GatewayAuth.ReplayDenialUnreachable` | scripts/pd_fleet/gateway_auth.py:351-359 | Through the service the replay denial cannot happen. |
| `GatewayAuth.ReplayDeniedExactly` | scripts/pd_fleet/gateway_auth.py:278-286 | Used directly, the store denies a replay exactly when a correctly bound consumed ticket comes with another operation key. |
| `GatewayAuth.DeniedChangesNothing` | scripts/pd_fleet/gateway_auth.py:247-286 | A denied presentation changes no association and no stored result, appends one audit entry, and at most expires its own ticket. |
| `GatewayAuth.OwnershipIsWhole` | scripts/pd_fleet/gateway_auth.py:288-306 | An association exists exactly when some ticket naming it was consumed: no half-made ownership. |
| `GatewayAuth.AssociationMovesLegally` | scripts/pd_fleet/gateway_auth.py:133-151 | An association changes state only along an edge of the transition table or by a commit of one of its tickets. |
| `GatewayAuth.SingleWriterTicketStore.ConsumeTransaction` | scripts/pd_fleet/gateway_auth.py:238-306 | The transaction for any operation key, in the source's order of checks. |
| `GatewayAuth.SingleWriterTicketStore.EvaluateAssociation` | scripts/pd_fleet/gateway_auth.py:143-151 | Missed heartbeats and exceeded grace move the association one edge. |
| `GatewayAuth.SingleWriterTicketStore.Transition` | scripts/pd_fleet/gateway_auth.py:133-136 | Moves along a legal edge, otherwise reports the state it stayed in. |
| `ParallelExecutor.OrderedIds` | scripts/pd_fleet/parallel.py:115-121 | The run's ids are the task ids, each once, strictly increasing. |
| `ParallelExecutor.ExactlyOnePlace` | scripts/pd_fleet/parallel.py:151-207 | At every turn, for every completion order, timeout or cancellation: each id is in exactly one of finished, in flight and waiting, no id is submitted twice, and at most max_workers are in flight. |
| `ParallelExecutor.OneResultPerId` | scripts/pd_fleet/parallel.py:208-221 | A finished run returns exactly one result per id in sorted order; copy failures are failed and ids never submitted are cancelled. |
| `ParallelExecutor.ResultsAreEarned` | scripts/pd_fleet/parallel.py:164-207 | Every recorded result is a copy failure, the outcome of one of its own completions, or an interruption that happened. |
| `ParallelExecutor.ResultsAreFinal` | scripts/pd_fleet/parallel.py:164-207 | No later turn replaces a recorded result. |
| `ParallelExecutor.EverythingRuns` | scripts/pd_fleet/parallel.py:199-207 | Without cancellation or deadline a finished run has run every copied task to its own outcome. |
| `ParallelExecutor.LoopEnds` | scripts/pd_fleet/parallel.py:164-207 | As many productive turns as there are tasks to run always end the loop. |
| `ParallelExecutor.BoundedParallelExecutor.Collect` | scripts/pd_fleet/parallel.py:199-207 | The loop over done futures pops, records and refills in the order handed over. |
| `ParallelExecutor.BoundedParallelExecutor.Run` | scripts/pd_fleet/parallel.py:99-221 | The whole loop against any schedule, with the closed, poisoned and invalid-id refusals and the poisoning rule. |
| `Lifecycle.HistoryIsPath` | scripts/pd_fleet/lifecycle.py:114-123 | Whatever is called in whatever order, the public transition included, the history is a path in the transition table ending at the current state, and 0 <= attempt <= max_attempts. |
| `Lifecycle.StartsExactly` | scripts/pd_fleet/lifecycle.py:114-177 | For every sequence of calls on a new task: the counter is the retries plus one counted start; a task that ran was started 1 + retries + bypasses times, a ready one one time less, any other at most as often. |
| `Lifecycle.StartLimitExactly` | scripts/pd_fleet/lifecycle.py:125-177 | When the retry limit limits starts: the counter equals the starts exactly when no mark_ready or transition left failed, and the starts pass max_attempts exactly when those bypasses pass what the counter leaves of it. |
| `Lifecycle.StartsWithinLimit` | scripts/pd_fleet/lifecycle.py:125-177 | In any state: starts never pass the counter by more than the bypasses and an uncounted start, so without those there are at most max_attempts. |
| `Lifecycle.CountsExactly` | scripts/pd_fleet/lifecycle.py:114-134 | The counter is the first start plus the retries exactly when a started task was started by start at zero, which transition to running avoids. |
| `Lifecycle.AttemptsCountRetries` | scripts/pd_fleet/lifecycle.py:125-177 | With the named operations the attempt counter is the first start plus the explicit retries, so at most max_attempts - 1 retries ever succeed. |
| `Lifecycle.FinalForever` | scripts/pd_fleet/lifecycle.py:41-49 | A completed, blocked or skipped task never changes again. |
| `Lifecycle.MarkReadyBypassesRetry` | scripts/pd_fleet/lifecycle.py:125-126 | A run for every n in which a task with a limit of one starts n times: each round but the first is one bypass of StartLimitExactly. |
| `Lifecycle.MoveIsNotCounted` | scripts/pd_fleet/lifecycle.py:114-123 | mark_ready and transition to running leave a new task running at attempt 0, which no named operation does. |
| `Lifecycle.RecoveryIgnoresHeartbeat` | scripts/pd_fleet/lifecycle.py:189-201 | A running task that started fresh is always recovered as an orphan, whatever its heartbeat, because its final report is set only on completion. |
| `Lifecycle.ResumedPathExactly` | scripts/pd_fleet/orchestrator.py:890-902 | Turning running into ready on resume keeps the history a path to the current state exactly when the task was not running. |
| `Lifecycle.TaskLifecycle.Transition` | scripts/pd_fleet/lifecycle.py:114-123 | Checks the table, appends one history entry; an illegal move changes nothing. |
| `Lifecycle.TaskLifecycle.MoveNow` | scripts/pd_fleet/lifecycle.py:114-123 | The public transition as an operation of a run: succeeds exactly along an edge of the table and touches neither attempts nor stamps. |
| `Lifecycle.TaskLifecycle.StartNow` | scripts/pd_fleet/lifecycle.py:128-137 | Starting needs an agent, sets the first attempt and both time stamps. |
| `Lifecycle.TaskLifecycle.RetryNow` | scripts/pd_fleet/lifecycle.py:168-177 | Only a failed, retryable task below its limit is retried, and counts one more attempt. |
| `Lifecycle.TaskLifecycle.RecoverOrphanNow` | scripts/pd_fleet/lifecycle.py:189-201 | Recovers exactly the running tasks without report, reference time or recent heartbeat. |
| `Orchestrator.AttemptsAreBounded` | scripts/pd_fleet/orchestrator.py:1064-1119 | Executing a ready task ends it completed or failed by consecutive attempts that never pass the limit, along a path of the transition table. |
| `Orchestrator.AttemptsFollowOutcomes` | scripts/pd_fleet/orchestrator.py:1095-1119 | Every attempt before the last failed retryably; the last decides the state; a retryable failure ends the task only at the limit. |
| `Orchestrator.EveryRunIsTracked` | scripts/pd_fleet/orchestrator.py:571-588 | For every sequence of steps a run can take: histories grow by paths, attempts stay bounded, settled tasks never change, each task is dispatched by consecutive attempts once, and only when dependencies, earlier waves and gates allow it, never after a task that depended on it. |
| `Orchestrator.FreshTaskRuns` | scripts/pd_fleet/orchestrator.py:1064-1119 | For a task that started fresh: dispatched as attempts 1..n with n <= max_attempts, and its history is a path from pending. |
| `Orchestrator.PassIsSound` | scripts/pd_fleet/orchestrator.py:1246-1256 | A blocking pass blocks only open tasks without a compatible agent or that depend, at some distance, on a failed or blocked one. |
| `Orchestrator.PassesReach` | scripts/pd_fleet/orchestrator.py:1246-1256 | k passes, whatever the id order, settle every task doomed at distance k. |
| `Orchestrator.TopologicalPassExactly` | scripts/pd_fleet/orchestrator.py:1246-1256 | When ids sort in dependency order, one pass leaves failed or blocked exactly the doomed tasks. |
| `Orchestrator.PassExactly` | scripts/pd_fleet/orchestrator.py:1246-1256 | One pass, in any order of ids and from any states, leaves failed or blocked exactly the tasks that were, or that at one of their turns are open and have no agent or depend on a task that falls in the turns before. |
| `Orchestrator.PassSettlesExactly` | scripts/pd_fleet/orchestrator.py:1246-1256 | A plan's id order makes every pass settle every doomed task, from all lives alike, exactly when no task with an agent has a dependency that sorts after it and has no agent or has a further dependency the task does not share. |
| `Orchestrator.RunLeavesDoomedPending` | scripts/pd_fleet/orchestrator.py:550-591 | For every plan of three tasks whose ids sort against the dependencies and whose last has no agent: every run, for any dispatcher and width, ends with the first still pending while what it depends on is blocked. |
| `Orchestrator.BackwardPlanIsBackward` | scripts/pd_fleet/orchestrator.py:1246-1256 | Such plans exist, for any three ids in order. |
| `Orchestrator.LastPassSettles` | scripts/pd_fleet/orchestrator.py:589-591 | When the order condition holds, the pass that ends a run leaves failed or blocked exactly the tasks that are doomed. |
| `Orchestrator.PickShrinks` | scripts/pd_fleet/orchestrator.py:571-587 | Whatever function computes the ready tasks, as long as its answer goes through the filter of _ready_ids: a look that picks a batch leaves strictly fewer tasks to pick, so the while-true loop of a wave ends. |
| `Orchestrator.ReadyExactly` | scripts/pd_fleet/orchestrator.py:1036-1043 | Filtering what the plan calls ready gives exactly the ready tasks of the wave, each once. |
| `Orchestrator.NothingLeftToBlock` | scripts/pd_fleet/orchestrator.py:1246-1256 | After a pass in dependency order no task is left that should be blocked. |
| `Orchestrator.FleetOrchestrator.RunAttempts` | scripts/pd_fleet/orchestrator.py:1064-1119 | The retry loop ends with the life and the dispatches of the bounded-attempts specification. |
| `Orchestrator.FleetOrchestrator.Execute` | scripts/pd_fleet/orchestrator.py:1045-1119 | Blocks a task that cannot run, otherwise runs it to its end; only that task changes. |
| `Orchestrator.FleetOrchestrator.BlockUnresolvable` | scripts/pd_fleet/orchestrator.py:1246-1256 | The loop in id order is one blocking pass. |
| `Orchestrator.FleetOrchestrator.BlockWaveStalls` | scripts/pd_fleet/orchestrator.py:1287-1296 | Blocks the waiting tasks of a wave whose gates have not passed, and nothing else. |
| `Orchestrator.FleetOrchestrator.ReadyIds` | scripts/pd_fleet/orchestrator.py:1036-1043 | Exactly the ready tasks of a wave, each once. |
| `Orchestrator.FleetOrchestrator.DrainWave` | scripts/pd_fleet/orchestrator.py:571-587 | The while-true loop of a wave ends where the function Drain does, and then nothing of the wave is ready. |
| `Orchestrator.FleetOrchestrator.Run` | scripts/pd_fleet/orchestrator.py:550-591 | The whole run ends where the function Whole does; it is a tracked run from the state it found; nothing is ready any more; with ids in dependency order nothing is left to block; when the order condition holds exactly the doomed tasks are failed or blocked; a dry run dispatches nothing. |
| `EventLog.Reachable` | scripts/pd_fleet/events.py:343-376 | For every log built by append: sequences strictly increase, ids are unique, line and event limits hold. |
| `EventLog.AppendOnly` | scripts/pd_fleet/events.py:343-376 | However events keep arriving, what is in the log stays there in its place. |
| `EventLog.ReappendIsNoOp` | scripts/pd_fleet/events.py:351-355 | Appending an identical event again returns it and changes nothing. |
| `EventLog.AcceptedExactly` | scripts/pd_fleet/events.py:343-376 | Exactly when a new event is accepted: it can be built, is owned, the log is readable and has fewer than 10000 events, its id is new and its sequence above every other. |
| `EventLog.LineLimitNeverRefuses` | scripts/pd_fleet/events.py:361-365 | append's own check of the line length never refuses: what can be built makes a line below the limit. |
| `EventLog.ReadableExactly` | scripts/pd_fleet/events.py:302-341 | A log built by append is readable exactly while its bytes fit. |
| `EventLog.JamsExactly` | scripts/pd_fleet/events.py:363-370 | An append makes a readable log unreadable exactly when it is accepted and its line passes the total limit, which append does not check. |
| `EventLog.JamIsForever` | scripts/pd_fleet/events.py:309-311 | From then on nothing can be read or appended again. |
| `EventLog.SixtyFourLinesJamTheLog` | scripts/pd_fleet/events.py:309-311 | Sixty-four events of the greatest size that can be built, 65615 bytes a line, are all accepted and jam the log; sixty-three do not. |
| `EventLog.FewerNeverJam` | scripts/pd_fleet/events.py:309-311 | No log of fewer than sixty-four events is ever jammed, whatever their sizes. |
| `EventLog.Log.AppendEvent` | scripts/pd_fleet/events.py:343-376 | The scanning loop refuses, returns the existing event, or adds one line, as specified. |
| `EventLog.Log.ReadRecords` | scripts/pd_fleet/events.py:302-341 | The line loop returns all records or the limit that was passed. |
| `EventDiagnostics.MissingExactly` | scripts/pd_fleet/event_diagnostics.py:251-263 | The integers collected between neighbours are exactly those inside the span that the stream skips, ascending. |
| `EventDiagnostics.AppendedLogDiagnosis` | scripts/pd_fleet/event_diagnostics.py:226-275 | For every appended log with integer sequences: no duplicate, non-monotonic or non-integer sequence is reported, first and last are right, and sequence_gaps is the first 32 missing integers in ascending order. |
| `EventDiagnostics.RaisesExactly` | scripts/pd_fleet/event_diagnostics.py:93-105 | Diagnosis of a readable log raises exactly when it shows transitions of more than 256 tasks. |
| `EventDiagnostics.LargeFleetRaises` | scripts/pd_fleet/event_diagnostics.py:93-105 | For every fleet of at most 1000 distinct tasks made ready and recorded one after the other: the log is readable, and diagnosing it raises exactly when there are more than 256 tasks. |
| `EventDiagnostics.TooManyTasksExample` | scripts/pd_fleet/event_diagnostics.py:93-105 | One such log of 257 recorded transitions that raises. |
| `EventDiagnostics.ProjectionAgrees` | scripts/pd_fleet/event_diagnostics.py:155-218 | If every transition of a set of fresh tasks was recorded and the log is within the limits, the diagnosis reports exactly each moved task's current state, with no malformed or inconsistent transition. |
| `EventDiagnostics.RecordedAgrees` | scripts/pd_fleet/lifecycle_events.py:185-216 | Recording a task's transition keeps the log's projection equal to the tasks' states. |
| `EventDiagnostics.ProjectEvents` | scripts/pd_fleet/event_diagnostics.py:155-224 | The projection loop. |
| `EventDiagnostics.CheckOrder` | scripts/pd_fleet/event_diagnostics.py:234-242 | The pairwise scan reports an anomaly exactly when the stream is not strictly increasing. |
| `EventDiagnostics.CollectGaps` | scripts/pd_fleet/event_diagnostics.py:251-263 | The nested loops, stopped at 32, yield the first 32 missing integers. |
| `EventDiagnostics.DiagnoseEventLog` | scripts/pd_fleet/event_diagnostics.py:176-275 | The whole diagnosis. |
| `StateFiles.FailureRestoresEverything` | scripts/pd.py:394-440 | An ordinary failure at any step leaves every target as it was before the call. |
| `StateFiles.SuccessReplacesEverything` | scripts/pd.py:394-416 | Success leaves every target new and the old contents in the backups. |
| `StateFiles.RecoveryErrorExactly` | scripts/pd.py:417-434 | A recovery error is raised exactly when a replacement failed and restoring an earlier one failed, uninterrupted. |
| `StateFiles.RestoreExactly` | scripts/pd.py:417-430 | Restoring in reverse order brings every file back exactly when every restore works. |
| `StateFiles.OldContentsAreNeverLost` | scripts/pd.py:411-434 | However the transaction ends, every old content is still in its target or in its backup. |
| `StateFiles.AllOrNothing` | scripts/pd.py:394-440 | With working restores and no interrupts the transaction is atomic. |
| `StateFiles.TargetsExactly` | scripts/pd.py:394-440 | For every combination of faults, what each target holds at the end: old if preparing failed or it was not replaced; new if all were replaced, a replacement was interrupted, or restoring stopped above it; else old, or what its failing restore left. |
| `StateFiles.TornExactly` | scripts/pd.py:394-440 | The targets end neither all old nor all new exactly when the faults alone leave one that is not old and one that is not new. |
| `StateFiles.TornByFaults` | scripts/pd.py:394-440 | When every file changes: torn exactly when all was prepared, a replacement after the first went wrong, and it was interrupted, or restoring was interrupted before it reached the first file, or a restore that was reached left something other than the old content. |
| `StateFiles.InterruptLeavesMixed` | scripts/pd.py:414-417 | One such environment: an exception the program does not catch, in place of the second replacement, leaves the first file new and the second old. |
| `StateFiles.PDState.RestoreReplaced` | scripts/pd.py:417-434 | The reverse loop restores as specified. |
| `StateFiles.PDState.WriteTransaction` | scripts/pd.py:394-440 | The three phases and the restoring, for every choice of failing step. |
| `StateFiles.PDState.Save` | scripts/pd.py:355-371 | The state in memory changes only when both files were replaced; after an ordinary failure the files are untouched too. |
| `Json.DumpInjective` | scripts/pd_fleet/gates.py:227-233 | The compact serialization, escapes included, determines the value. |
| `Gates.NormalizeDecides` | scripts/pd_fleet/gates.py:222-230 | Two values have the same normal form exactly when they are equal up to the order of list items and keys at every depth. |
| `Gates.CanonicalScopeDecides` | scripts/pd_fleet/gates.py:217-235 | Two plain scopes have the same canonical string exactly when they are equal up to reordering at every depth. |
| `Order.SortForgetsOrder` | scripts/pd_fleet/gates.py:225-229 | Sorting by a key that tells the elements apart forgets the order and nothing else. |
| `Contracts.AliasesExactly` | scripts/pd_fleet/contracts.py:223-243 | Aliases can be unified exactly when keys are non-empty and all spellings of a key have the same serialization; then each key has the first value given for it. |
| `Contracts.CanonicalizeExactly` | scripts/pd_fleet/contracts.py:302-312 | Exactly which plans have a canonical form, and that it is the cleaned plan. |
| `Contracts.CanonicalizeIsIdempotent` | scripts/pd_fleet/contracts.py:302-312 | Canonicalizing a canonical plan returns the very same plan. |
| `Contracts.CanonicalBytesDecide` | scripts/pd_fleet/contracts.py:315-327 | Two plans have the same canonical bytes, hence the same hash, exactly when they have the same kept keys under any spelling, the same cleaned values, and set-like lists with the same items in any order. |
| `Contracts.SetLikeExactly` | scripts/pd_fleet/contracts.py:284-288 | A capabilities or dependencies list has the same form exactly when its items do in some order. |
| `Contracts.UnifyAliases` | scripts/pd_fleet/contracts.py:223-243 | The loop stops at the first bad key or conflict. |
| `Contracts.CanonicalValue` | scripts/pd_fleet/contracts.py:245-300 | The recursive fill gives the specified canonical value or the first error. |
| `Contracts.CanonicalizePlan` | scripts/pd_fleet/contracts.py:302-312 | Unifies, checks the schema version, and canonicalizes the root. |

## Left out

- The V2 path of the orchestrator (`run_v2`, `reconcile`), the scheduler and the run store.
- Connection generations of the gateway: connecting and disconnecting are not steps, an observer is connected.
- Bridge calls that pass an association object instead of its reference, and association references minted by the gateway.
- Audit reasons and error messages: only error codes are kept; `updated_at` stamps are dropped.
- JSON size limits and redaction in the bridge's serialization, which can refuse a row before it is written.
- Returned subscription records are values here; in the program they alias the store's records.
- Symlink checks, permissions, `fsync` failure modes, the `flock` mechanics and temporary-file names.
- Leftover temporary files of a state save when removing them fails.
- A target file damaged from outside before a checkpoint save, and `recover`/`resume` built on `load`.
- `Checkpoint.completed_tasks`, `resume_tasks` and `retry_task`: filters over lifecycles that would only add easy members.
- What the patterns and text checks of an event refuse beyond the length of its ids and its size.
- Field validation of adapter requests beyond its verdict, and results' derived evidence and output references.
- Callbacks of the parallel executor, which receive copies and whose exceptions are swallowed, and its error texts.
- `query` of the event log, checksum and decoding failures of damaged log files, and the owner-epoch argument of the diagnosis.
- `record_checkpoint` and the validation of reasons in the lifecycle recorder.
- Cyclic, non-finite and non-JSON values and recursion limits of the canonical forms; they are rejected or unrepresentable here.
- `GatePolicy.evaluate`, `HumanVerificationGate.evaluate` and report normalization: conjunctions settled by reading one function.
- Lifecycle hooks, reports, checkpoints written during a run, and back-off sleeping of the orchestrator.
- ParallelExecutor.LoopEnds: bounds the productive turns and does not say that completions ever arrive, which is up to the tasks.
