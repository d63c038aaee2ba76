# SchemaBot verification model

SchemaBot applies reviewed schema changes to many deployments of a database. This project models the parts of it
whose correctness is hard to see from the code: the operator protocol that lets any number of drivers, in any number
of processes, push one apply through its operation rows, and the code that builds, routes, controls and prints that
work.

* `ApplyStates`, `ApplyRows`: the state vocabulary, the two aggregations of child states, the stored rows, the claim
  gates, the lease guards and the decision a projection takes.
* `RolloutProtocol`: a state machine over one stored apply. A step is at most one storage statement, so the parent
  read, the row listing and the compare-and-swap of a projection are separate steps and every snapshot may be stale.
  `RolloutParent`, `RolloutRows`, `RolloutOrder`, `RolloutVerdict` prove what every run keeps; `RolloutProgress` what a
  rollout can still do, `RolloutLone` the same for single-operation applies; `RolloutHistory` what the verdicts that
  reach the store go back to. `RolloutRaces` gives runs from a fresh apply that show why three theorems carry a
  condition. `RolloutSteps` puts runs together from single steps.
* `Operator`: the same procedures run one at a time, as methods over a mutable store. `OperatorProtocol`: settling a
  drive is a run of the protocol.
* `ControlRequests`: the stop, start and cutover handlers, and every sequence of their calls. `ControlProtocol`: every
  interleaving of those calls with drivers and retry expiry is a run of the protocol.
* `FanOut`, `Routing`, `Names`: building operation groups, validating and resolving routing configuration, and
  dispatching through the client cache. `RolloutQueue`: the rollout that a plan's groups become.
* `DdlText`, `SchemaPaths`, `Reviews`, `Heartbeat`: the DDL splitter and printer, path policy, review selection and
  heartbeat timing.

A token of 0 stands for "never claimed". `Stopped` counts as terminal for applies and operations, and not for tasks, as
in the state registry. What the data plane, the clock and remote services answer is a parameter.

## Where the code and its documentation differ

The model follows the code.

* The claim query's comment says a stopped row has already run, so resuming it needs no order gate. A stop also marks
  rows stopped that never ran; after a start the second deployment is claimed while the first, claimed just before it,
  has not been driven (`StartOvertakes`). `ClaimedInOrderIff` says exactly when the order holds: a run without a start
  request keeps it, for "continue" rows if expiries are quiet (`ClaimedInOrder`). Every first claim passes its gate or
  resumes a stopped row under a start request (`FirstClaim`).
* Expiring a retry budget fails retryable rows without rotating their leases, so a driver that is still driving such a
  row can overwrite the failure (`FailureIsOverwritten`). A finished row keeps its values in every continuation exactly
  when no driver can still write it something else (`FinalIff`); an expiry is quiet when it fails no such row, and rows
  that failed in runs with quiet expiries are final (`FinishedRowsAreFinal`).
* A stopped apply is meant to have no completed_at. The start handler's sync of a remote stop stamps one:
  `TimesKeptIff` says exactly which steps keep the time columns, and that one never does.
* The claim query's comment says that under "continue" a failed row no longer blocks later deployments. A failed shard
  still blocks its namespace's finalizer, and the pending finalizer blocks every later deployment: until a stop sweeps
  it, none of them ever starts and the apply reports running_degraded (`StrandedForever`, `HeldBackForever`,
  `StrandedRunsDegraded`; `FailedShardStrands` is a run from a fresh apply). Without a stranded finalizer a rollout that
  nobody stops, defers or retries never stalls (`NeverStalls`).
* A repeated start is not always a no-op: it closes a stop that has taken effect meanwhile
  (`RepeatedStartClosesStop`). An accepted repeat changes nothing exactly when no stop was pending (`RepeatedStart`).
* The ALTER splitter passes over the character behind a clause comma whatever it is, so a comma without a space costs
  the keyword its first letter (`MissingSpaceLosesLetter`, `MissingSpaceExample`).
* Two routes share a client when an environment name contains "/" (`CacheCollision`); `SameKeyIff` says exactly when.
* A single child in `resuming` aggregates to `pending`: `DeriveSingleton` lists the states a one-child aggregate keeps.

## Model

| member | source | states |
|---|---|---|
| `ApplyStates.DeriveApplyState` | pkg/state/apply.go:83-134 | The counting aggregation returns what the priority list means over membership alone; the next seven rows say what that is |
| `ApplyStates.DecidedIff` | pkg/state/apply.go:95-109 | Exactly when each failing, stopping or reverting verdict is reached: its state occurs and no stronger one does |
| `ApplyStates.UndecidedIff` | pkg/state/apply.go:110-132 | Exactly when each other verdict is reached; a completed child never hides an unfinished one |
| `ApplyStates.PendingIff` | pkg/state/apply.go:133-134 | Exactly what is left for pending |
| `ApplyStates.StrongestWins` | pkg/state/apply.go:66-82 | The aggregate is as strong as its strongest child and no stronger |
| `ApplyStates.CompletedIsNeutral` | pkg/state/apply.go:110-126 | A completed child changes no aggregate but the empty one |
| `ApplyStates.DeriveComposes` | pkg/state/apply.go:83-134 | Aggregating in two stages, groups first, gives what aggregating everything at once gives |
| `ApplyStates.DeriveIgnoresOrder` | pkg/state/apply.go:83-134 | The aggregate depends only on which states occur |
| `ApplyStates.DeriveSingleton` | pkg/state/apply.go:83-134 | A one-child aggregate is the child's own state exactly for the states the aggregation names |
| `ApplyStates.HasLaterNonTerminal` | pkg/state/apply.go:262-269 | True exactly when an unfinished child follows |
| `ApplyStates.DeriveRolloutApplyState` | pkg/state/apply.go:201-256 | The classifying loop returns the rollout projection: hard failure, pause hold, settled verdict, degraded |
| `ApplyStates.RolloutIff` | pkg/state/apply.go:201-256 | Exactly when a failure fails the rollout, holds it or lets it run degraded; without one the aggregate stands |
| `ApplyRows.ProjectedIff` | pkg/api/operator.go:1535-1572 | The same for stored rows: a failed row fails the apply exactly if some failed row halts or nothing is left to run |
| `ApplyRows.ActiveIff` | pkg/storage/mysqlstore/applies.go:91-108 | Which states can be re-leased: all apply states but the terminal ones and those that wait to start, to be retried or to be unpaused |
| `RolloutParent.OnlyRevivalsLeaveTerminal` | pkg/api/operator.go:1535-1572 | A step takes a terminal parent back only by the guarded failed-to-degraded reopening, a start's apply-level claim, or a write under the current apply lease |
| `RolloutParent.TerminalParentStays` | pkg/api/operator.go:1535-1662 | Over every run with stale snapshots, a terminal parent stays terminal unless one of those happens |
| `RolloutParent.OnlyFailedReopens` | pkg/api/operator.go:1551-1572 | In runs where no apply lease is taken, starts and expiries included, the reopening projection (failed parent, failed base, caller allowed to reopen) is the only way back |
| `RolloutParent.ParentChangeAuthorized` | pkg/api/operator.go:1535-1662 | Every change of the parent state comes from one of seven writers under its own guard; a projection writes the projection of its listing, under its lease, from the state it read |
| `RolloutParent.ApplyClaimWrites` | pkg/storage/mysqlstore/applies.go:1434-1552 | What an apply-level claim writes, by state: a fresh lease, the running or resuming state without a completion time, and for a retry one more attempt and no error |
| `RolloutParent.TaskChangeAuthorized` | pkg/api/operator.go:262-276 | A task changes by the holder of its row, the holder of the apply while stopping, or retry expiry |
| `RolloutParent.StopClosureAuthorized` | pkg/api/operator.go:900-927 | A stop is closed over a terminal apply or by the data plane holding the apply |
| `RolloutParent.GaugeIsConserved` | pkg/api/operator.go:1638-1653 | For multi-operation applies, gauge plus the liveness changes of the other parent writers (apply-lease holders, retry expiry, the start handler) tracks whether the parent is live, over every run |
| `RolloutParent.SingleGaugeUntouched` | pkg/api/operator.go:1638-1653 | Projections never touch the gauge of a single-operation apply |
| `RolloutParent.NoSwapIsPublishedTwice` | pkg/api/operator.go:1672-1738 | Every published summary belongs to its own swap from non-terminal to terminal |
| `RolloutParent.SummaryAuthorized` | pkg/api/operator.go:1672-1738 | A summary goes out only over a terminal apply, for the swap its driver won |
| `RolloutParent.TimesKeptIff` | pkg/api/operator.go:1574-1632 | Exactly which steps keep the time columns sound, stale projections, expiry, claims, leased writes and start syncs included |
| `RolloutParent.TimeColumns` | pkg/api/operator.go:1574-1632 | Over every run from a fresh row made of such steps: started_at never changes once set, every non-pending row has it, completed_at is set exactly for terminal states other than stopped |
| `RolloutParent.RetriesAreCounted` | pkg/storage/mysqlstore/applies.go:1664-1756 | Over every run the attempt counter is the number of retries handed out, and never more than ten |
| `RolloutParent.ExpiryFails` | pkg/storage/mysqlstore/applies.go:1664-1756 | What an expired retry budget leaves: a failed apply stamped once, no retryable row, no unfinished task; leases and the rest are kept |
| `RolloutParent.UnracedProjection` | pkg/api/operator.go:1535-1662 | Load, list and swap with nothing in between leave the parent at the projection of the rows, unless refused |
| `RolloutRows.LeasesInv` | pkg/storage/mysqlstore/apply_operations.go:817-966 | Tokens are fresh, pending rows are unclaimed and no two drivers carry one token, in every run |
| `RolloutRows.OneHolder` | pkg/storage/mysqlstore/apply_operations.go:356-407 | At most one driver can write a row |
| `RolloutRows.RowChangeAuthorized` | pkg/api/operator.go:262-276 | A row change comes from a claim, the row's one holder, a stop of a pending row, the mirror of a terminal parent onto a lone row, or retry expiry |
| `RolloutRows.EveryRowChangeAuthorized` | pkg/api/operator.go:262-276 | The same, for every change in every run from a fresh apply |
| `RolloutRows.TasklessFails` | pkg/api/operator.go:1005-1026 | Only a row without tasks is failed for having none, with the reason, under its lease |
| `RolloutRows.SettledRowsAreFinal` | pkg/api/operator.go:1407-1459 | A completed or failed row of a multi-operation apply that no driver can still write something else never changes, whatever follows, unquiet expiries included |
| `RolloutRows.FinishedRowsAreFinal` | pkg/api/operator.go:1407-1459 | For every split of every run from a fresh apply: a completed row never changes again, nor does a row that failed before the cut in a run with quiet expiries |
| `RolloutRows.FinalIff` | pkg/storage/mysqlstore/applies.go:1664-1756 | A finished row keeps its values over all continuations if and only if no claimed, driving, deriving or mirroring driver of it can write it something else |
| `RolloutVerdict.CompletionIsEarned` | pkg/api/operator.go:1535-1662 | However stale the listings: in every run without apply leases, an apply reported completed has only completed rows |
| `RolloutVerdict.FailureIsNeverLost` | pkg/state/apply.go:171-256 | Once the rows aggregate to failed in a run with quiet expiries, every continuation projects failed or running-degraded, and failed once all rows are terminal |
| `RolloutHistory.SweepsAreAsked` | pkg/api/operator.go:860-893 | In every run, whoever marks a pending row stopped found a stop request pending earlier, at a step of its own |
| `RolloutHistory.SwapsGoBack` | pkg/api/operator.go:1535-1662 | Every state change a projection makes is of three moments of the run: the parent read then, the rows listed later, and the swap; one that revives a finished apply read it failed during its driver's own drive and listed rows that were failed |
| `RolloutHistory.VerdictsAreBacked` | pkg/api/operator.go:1321-1364 | Every verdict on a work row was, at an earlier moment, what all its tasks aggregated to or what the mirrored parent was, or it is an expired retry |
| `RolloutHistory.CompletedApplyRanEverything` | pkg/api/operator.go:622-687 | An apply reported completed ran everything: for each work row there is a moment of the run at which its driver read every one of its tasks completed |
| `RolloutHistory.FailedApplyHasReason` | pkg/api/operator.go:1535-1662 | An apply reported failed has a reason in the run: a failed task that was read, a failed finalizer, a row without tasks or an expired retry; no interleaving and no chain of mirrors makes one up |
| `RolloutOrder.FirstClaim` | pkg/storage/mysqlstore/apply_operations.go:690-775 | A first claim happens with no stop pending, behind earlier deployments that completed, failed under "continue" or, for a barrier row, wait at or are past the cutover barrier, and for a finalizer behind its completed work; or it resumes a stopped row under a start request |
| `RolloutOrder.ClaimWrites` | pkg/storage/mysqlstore/apply_operations.go:817-966 | What either claim writes: a fresh lease on one row and, for a row that waits to start, resume or cut over, its new state |
| `RolloutOrder.ClaimedInOrderIff` | pkg/storage/mysqlstore/apply_operations.go:512-567 | In every run, at every point: a claimed rolling row has every earlier deployment out of its way and a claimed finalizer has its namespace's work completed, if and only if no start resumed the row before its turn and no driver took back a failure that a "continue" row was let past |
| `RolloutOrder.ClaimedInOrder` | pkg/storage/mysqlstore/apply_operations.go:512-567 | So the order holds throughout every run without starts, for "continue" rows with quiet expiries |
| `RolloutOrder.OneRowCutsOver` | pkg/storage/mysqlstore/apply_operations.go:982-1097 | At most one operation row of an apply is in the cutting_over state, and it is a barrier row (for "continue" rows, with quiet expiries) |
| `RolloutOrder.EntersCutover` | pkg/storage/mysqlstore/apply_operations.go:1040-1097 | A row starts to cut over only as a barrier row behind finished rows, with no stop pending and no deferral |
| `RolloutOrder.DeferredCutover` | pkg/storage/mysqlstore/apply_operations.go:1040-1097 | While the cutover is deferred no row enters it, in any run |
| `RolloutOrder.StopHaltsRollout` | pkg/storage/mysqlstore/apply_operations.go:553-558 | While a stop is pending and no start is, no operation starts and no cutover starts |
| `RolloutProgress.NextRowIff` | pkg/storage/mysqlstore/apply_operations.go:690-860 | Exactly when a free driver can claim the first row that is not out of the way, by its state |
| `RolloutProgress.NeverStalls` | pkg/storage/mysqlstore/apply_operations.go:512-567 | A rollout nobody stops, defers or retries, without a stranded finalizer, always has a claimable row while one is unfinished |
| `RolloutProgress.CompletionIsReachable` | pkg/api/operator.go:622-687 | Every freshly queued rollout whose finalizers follow their work and whose cutover is not deferred, under any policies, has a run that completes every row and the apply; barrier rows park and are completed by their cutover claim |
| `RolloutLone.LoneCompletionIsReachable` | pkg/api/operator.go:348-523 | Every single-operation apply that is fresh, stopped with a start requested, or failed with retries left has a run under both its leases that completes its row and it |
| `RolloutProgress.StrandedForever` | pkg/storage/mysqlstore/apply_operations.go:712-731 | A finalizer whose work failed for good is never started in any run without a stop sweep |
| `RolloutProgress.HeldBackForever` | pkg/storage/mysqlstore/apply_operations.go:696-711 | Nor is any later deployment that has not started yet |
| `RolloutProgress.StrandedRunsDegraded` | pkg/state/apply.go:171-256 | And under "continue" the rows project to running degraded throughout |
| `RolloutRaces.StartOvertakes` | pkg/storage/mysqlstore/apply_operations.go:648-653 | A run from a fresh apply with tasks: a stop drive stops both deployments, a start lets the second be claimed while the first, claimed before it, has not been driven |
| `RolloutRaces.FailureIsOverwritten` | pkg/storage/mysqlstore/applies.go:1664-1756 | A run from a fresh apply in which a retry outlives its expiry and turns the failed row of a failed apply into a completed one |
| `RolloutRaces.FailedShardStrands` | pkg/storage/mysqlstore/apply_operations.go:712-731 | A run from a fresh sharded apply under "continue" that ends so |
| `Operator.OneSwapWins` | pkg/storage/mysqlstore/applies.go:977-1033 | Of any number of drivers that decided from the same parent state, exactly one moves the parent if some lease holds and the state is still there, and none otherwise |
| `Operator.Store.PersistOperationState` | pkg/api/operator.go:1407-1459 | Exactly the seven terminal, retryable and parked states are written, under the lease; every other state leaves the row alone |
| `Operator.Store.MarkOperationFromOwnResult` | pkg/api/operator.go:1321-1364 | A work row with tasks is left alone exactly while they run on; once marked it is completed exactly if all are, failed exactly if one is, with the first failed task's message; a finalizer keeps the state its drive wrote; a lone task-less VSchema operation mirrors its parent |
| `Operator.Store.FirstFailedError` | pkg/api/operator.go:1368-1375 | The first message a failed task left, or none if none did |
| `Operator.Store.FirstFailedMessage` | pkg/api/operator.go:1384-1391 | The first message a failed row left, naming its deployment, or none if none did |
| `Operator.Store.UpdateApplyStateFromOperations` | pkg/api/operator.go:1535-1662 | From any snapshot: the swap happens exactly when the decision, the lease and the stored state allow it; it stamps the first start and the first completion, keeps recorded ones, and blames the first failed row; errors are exactly refusals and lost leases, and the gauge moves by the parent's change |
| `Operator.Store.ProjectAndClose` | pkg/api/operator.go:651-687 | Unraced, it is refused exactly when it would revive a terminal parent; otherwise the parent is the projection, won summaries are published and resolved stops closed |
| `Operator.Store.Settle` | pkg/api/operator.go:622-687 | Unraced: the row follows all its tasks, siblings keep their rows but for a stop's sweep, the parent equals the projection of all rows; a row whose tasks run on leaves everything alone |
| `OperatorProtocol.SettleIsRun` | pkg/api/operator.go:622-687 | Settling is a run of the protocol (read, mark, sweep, project, publish, close) that ends with the rows, parent, stop request, gauge and summaries of the procedure's contract |
| `Operator.Store.FailOperationWithoutTasks` | pkg/api/operator.go:1005-1026 | A task-less row fails with its reason; the parent follows exactly when the caller's snapshot is still true and its lease holds, for both callers; a lost lease changes nothing |
| `Operator.Store.ReconcileFromTerminalParent` | pkg/api/operator.go:971-995 | A lone row: mirroring down and projecting up never fails and never moves the parent; several rows: refused exactly when they project to something non-terminal |
| `Operator.Store.RecoverApplyPendingStop` | pkg/api/operator.go:766-858 | Exactly when a stop is stranded; a failed drive leaves rows, tasks and request for the next poll; otherwise the drive's columns and tasks are stored, no row stays pending, and rows that were all pending or terminal end with a terminal parent and no stop |
| `Operator.SweepSettlesIff` | pkg/api/operator.go:766-858 | Exactly which row sets settle once their pending rows are stopped |
| `ControlRequests.ControlPlane.ExecuteStop` | pkg/api/control_handlers.go:722-964 | A repeat answers with the stored counts and changes nothing; rejected exactly for a terminal or task-less apply; a first stop counts finished and unfinished tasks; only a single-operation apply is stopped at once, and then the request is closed exactly if that resolved it; start and cutover requests are untouched |
| `ControlRequests.ControlPlane.ExecuteStart` | pkg/api/control_handlers.go:1120-1200 | Accepted exactly when the state allows it, a pending stop took effect, and a start is pending, a deploy is deferred or work is stopped; a stop that stays pending rejects it and nothing changes; a repeat answers with the stored counts; a new start is recorded and leaves the apply claimable |
| `ControlRequests.ControlPlane.ExecuteCutover` | pkg/api/control_handlers.go:491-602 | Recorded exactly when no stop or cutover is pending and something waits for it; answered as in progress exactly when one is, as a repeat exactly when one is pending; nothing else changes |
| `ControlRequests.ControlPlane.CutoverReadiness` | pkg/api/control_handlers.go:616-674 | Ready exactly if the stored state waits, the one remote reports waiting or cutting over, or without such a remote a running apply has a waiting task and none cutting over; in progress exactly if the stored state or a task cuts over |
| `ControlRequests.ControlPlane.CountForStop` | pkg/api/control_handlers.go:953-963 | Finished and unfinished tasks, together all tasks |
| `ControlRequests.ControlPlane.CountForStart` | pkg/api/control_handlers.go:1302-1311 | Stopped and finished tasks |
| `ControlRequests.ControlPlane.CompleteResolvedStopBeforeStart` | pkg/api/control_handlers.go:1202-1289 | A stop is closed exactly if it took effect in the store or on the remote; a stop that stays pending changes nothing, a closed one leaves a resolved apply, and the call fails exactly when an unresolved remote cannot be asked |
| `ControlRequests.ControlPlane.QueueStopped` | pkg/api/control_handlers.go:1294-1397 | Accepted exactly when the remote reports stopped or, without one, a task is stopped; then it is recorded with work and leaves the apply stopped; a rejected one changes nothing |
| `ControlRequests.StartIff` | pkg/api/control_handlers.go:1120-1397 | Exactly when a start is accepted |
| `ControlRequests.StartRecords` | pkg/api/control_handlers.go:1294-1397 | The counts and state a new start leaves: stopped and finished tasks, of the remote where it answers for them, and at least one to act on |
| `ControlRequests.PendingStartHistory` | pkg/api/control_handlers.go:1120-1200 | Over every sequence of calls and drift, a pending start goes back to one start call made while no stop was pending, which left claimable work and the counts still stored |
| `ControlRequests.PendingStopHistory` | pkg/api/control_handlers.go:722-964 | A pending stop goes back to one stop call over a live apply, and its counts account for every task of that moment |
| `ControlRequests.StopIsNewer` | pkg/api/control_handlers.go:294-309 | When both are pending the stop was requested after the start: no start ever gets past a pending stop |
| `ControlRequests.RepeatedStop` | pkg/api/control_handlers.go:920-950 | While a stop stays pending, a repeat returns the first counts and changes nothing, however rows drift |
| `ControlRequests.RepeatedStart` | pkg/api/control_handlers.go:1142-1169 | While a start stays pending, an accepted repeat returns the first counts; it changes nothing exactly when no stop was pending |
| `ControlRequests.RepeatedStartClosesStop` | pkg/api/control_handlers.go:1202-1235 | A sequence in which the repeated start closes a stop |
| `ControlProtocol.StopIsProtocol` | pkg/api/control_handlers.go:722-950 | Every stop call is at most one enabled stop request of the protocol, ending in the store the handler leaves |
| `ControlProtocol.StartIsProtocol` | pkg/api/control_handlers.go:1120-1397 | Every start call is a run of the protocol (close or sync the stop, then request the start) ending in the store the handler leaves |
| `ControlProtocol.InterleavingsAreRuns` | pkg/api/control_handlers.go:491-1397 | Every interleaving of handler calls with driver steps and expiries is a run of the protocol |
| `ControlProtocol.CallsKeepFinishedRows` | pkg/api/operator.go:1407-1459 | So no interleaving of calls, drivers and expiries changes a finished row that no driver can still write |
| `FanOut.ShardKeysInjective` | pkg/api/plan_handlers.go:1140-1181 | A work key names one namespace, shard and table |
| `FanOut.KeysDisjoint` | pkg/api/plan_handlers.go:1179-1185 | Work keys never equal finalizer keys |
| `FanOut.KeyNamespaces` | pkg/storage/mysqlstore/apply_operations.go:717-728 | Both kinds of key give the claim gate their namespace |
| `FanOut.KeysNameNamespace` | pkg/storage/mysqlstore/apply_operations.go:717-728 | Every work and finalizer key gives the claim gate its namespace |
| `FanOut.ShardKeyParts` | pkg/api/plan_handlers.go:1179-1181 | A work key is read back as its namespace, shard and table |
| `FanOut.FanIsExact` | pkg/api/plan_handlers.go:1067-1124 | Distinct (deployment, key) pairs; each work group carries its target's address and exactly its key's jobs; each target has every job's group and one task-less finalizer per VSchema namespace |
| `FanOut.FanInOrder` | pkg/api/plan_handlers.go:1067-1124 | Groups stand in the order of their targets, a target's finalizers behind its work |
| `FanOut.SelectKeepsOrder` | pkg/api/plan_handlers.go:1077-1101 | A group's tasks come in planning order |
| `FanOut.TasksConserved` | pkg/api/plan_handlers.go:1067-1124 | Every target gets every planned job as often as planned, nobody else any |
| `FanOut.JobCopies` | pkg/api/plan_handlers.go:1077-1101 | A change is planned once per changing shard of its namespace |
| `FanOut.GateDropsNothing` | pkg/api/plan_handlers.go:1046-1065 | Behind the shard gate every change is planned on some shard |
| `FanOut.CanBuildSharded` | pkg/api/plan_handlers.go:1046-1065 | The gate's exact condition |
| `FanOut.ChangingShardsByNamespace` | pkg/api/plan_handlers.go:1163-1177 | Per namespace, its changing shards in name order |
| `FanOut.SortedByName` | pkg/api/plan_handlers.go:1171-1175 | The sort orders the shards and loses none |
| `FanOut.VSchemaNamespaces` | pkg/api/plan_handlers.go:1129-1138 | Exactly the namespaces with a VSchema change, ascending |
| `FanOut.BuildSharded` | pkg/api/plan_handlers.go:1067-1124 | The map-driven builder yields the specified fan-out; it is rejected exactly for a key part with the delimiter or an overlong key |
| `FanOut.BuildUnsharded` | pkg/api/plan_handlers.go:1032-1043 | One group per target with every change, task-less only for a lone VSchema-only target |
| `FanOut.BuildApplyOperationGroups` | pkg/api/plan_handlers.go:1014-1044 | Sharded exactly when supported and possible, refused exactly when such a plan has an unsound key; over distinct deployments every group carries a target's deployment and address, its tasks are planned changes on changing shards under its key, every target queues each change once per changing shard, and the groups stand in rollout order; otherwise one whole group per target |
| `FanOut.QueuedAsConfigured` | pkg/api/plan_handlers.go:1187-1192 | In a validated configuration every queued group names a configured deployment, carries the target configured for it and dispatches to its backend |
| `RolloutQueue.EveryPlanCanComplete` | pkg/storage/mysqlstore/applies.go:695-735 | The groups of a plan fanned out over distinct targets become a freshly queued rollout that can be driven to completion |
| `RolloutQueue.PlanIsStorable` | pkg/storage/mysqlstore/applies.go:695-735 | The groups of either fan-out of a plan with changes meet the store's demands on them |
| `Routing.ValidateDeploymentOrder` | pkg/api/config.go:1334-1359 | Accepts exactly the permutations of the deployments |
| `Routing.ValidateEnvironment` | pkg/api/config.go:842-922 | Accepts exactly one complete routing form with consistent policies |
| `Routing.Validate` | pkg/api/config.go:782-954 | Accepts exactly the valid configurations |
| `Routing.ValidateNoCollision` | pkg/api/config.go:1041-1058 | Rejects exactly local databases that share a route with a remote deployment |
| `Routing.OrderedDeploymentKeys` | pkg/api/config.go:1312-1330 | The explicit order, or all keys ascending |
| `Names.BeforeIff` | pkg/api/config.go:1312-1330 | The order of names: a proper prefix first, else the first differing character decides |
| `Routing.ResolveDatabaseTargets` | pkg/api/config.go:1372-1431 | When it answers; that the targets are the configured deployments, each once, in rollout order, each with its own configured target |
| `Routing.ValidResolves` | pkg/api/config.go:782-954 | Every environment of a validated configuration resolves |
| `Routing.DispatchesAsNamed` | pkg/api/service.go:324-396 | In a validated configuration each resolved deployment dispatches to the backend its environment names |
| `Routing.RouteIff` | pkg/api/service.go:324-396 | What each answer of the lookup means: local, remote, fallback or not found |
| `Routing.SameKeyIff` | pkg/api/service.go:325-328 | Exactly which routes share a cache key |
| `Routing.Clients.TernClient` | pkg/api/service.go:324-396 | The cache's whole effect; with slash-free environments it never changes an answer |
| `Routing.CacheCollision` | pkg/api/service.go:325-337 | A valid configuration in which it does |
| `DdlText.FindMatchingParen` | pkg/ddl/format.go:223-237 | The first parenthesis that returns to the opening depth, or none |
| `DdlText.MatchedBody` | pkg/ddl/format.go:223-237 | Between a parenthesis and its match the text is balanced |
| `DdlText.SplitByComma` | pkg/ddl/format.go:240-269 | The splitting loop cuts at depth-zero commas and drops an empty last part |
| `DdlText.JoinSplit` | pkg/ddl/format.go:240-269 | Joining gives the text back, up to one trailing top-level comma |
| `DdlText.CutParts` | pkg/ddl/format.go:240-269 | Parts of a balanced body are balanced and hold no top-level comma |
| `DdlText.CutJoin` | pkg/ddl/format.go:240-269 | Splitting joined parts gives the parts back |
| `DdlText.PrintBody` | pkg/ddl/format.go:152-164 | The printed lines are the padded parts joined by commas |
| `DdlText.PrintedLayout` | pkg/ddl/format.go:152-164 | Every trimmed part on a line of its own, four spaces in, with a comma at the end of all but the last |
| `DdlText.FormatCreateTable` | pkg/ddl/format.go:120-173 | Which text is reformatted, and to what: several parts are printed so that they read back the same, a lone part stays, the restyled options come last |
| `DdlText.ReprintRoundTrip` | pkg/ddl/format.go:152-164 | Re-splitting the printed body and trimming gives the trimmed parts |
| `DdlText.PrintingIsIdempotent` | pkg/ddl/format.go:152-164 | Printing a printed body changes nothing |
| `DdlText.FormattedBody` | pkg/ddl/format.go:120-173 | Reformatted text has the printed body where its parentheses say, with the same parts |
| `DdlText.SplitClauses` | pkg/ddl/format.go:285-315 | The scanning loop yields the specified clauses |
| `DdlText.ClausesAreCut` | pkg/ddl/format.go:285-315 | Every text is cut exactly at its clause commas, and each clause is the text in between |
| `DdlText.ClausesFall` | pkg/ddl/format.go:285-315 | One clause more than clause commas, none with a clause comma of its own; all after the first start with a keyword exactly if every clause comma has a space behind it |
| `DdlText.JoinClausesIff` | pkg/ddl/format.go:285-315 | Joining the clauses gives the text back exactly when each separating comma has one space behind it |
| `DdlText.OneSpacedIff` | pkg/ddl/format.go:296-309 | The scanner's condition, over positions |
| `DdlText.SplitAlterClauses` | pkg/ddl/format.go:272-324 | The same for the whole statement behind its table name, with the table part in front of the first clause; joining gives the statement back exactly when each clause comma has one space behind it |
| `DdlText.FindTableNameEnd` | pkg/ddl/format.go:327-345 | Which of the two forms of table name ends where |
| `DdlText.TableEndsOnce` | pkg/ddl/format.go:327-345 | A statement has one end of its table part |
| `DdlText.MissingSpaceLosesLetter` | pkg/ddl/format.go:298-308 | Without a space the keyword loses its first letter |
| `DdlText.MissingSpaceExample` | pkg/ddl/format.go:298-308 | The same on an ADD clause |
| `SchemaPaths.CleanIsIdempotent` | pkg/api/source_policy.go:252-257 | Cleaning a clean path changes nothing |
| `SchemaPaths.ParseShow` | pkg/api/source_policy.go:252-257 | A clean path read back is itself |
| `SchemaPaths.ParseAppend` | pkg/api/source_policy.go:252-257 | How cleaning reads a path segment by segment |
| `SchemaPaths.EscapeIff` | pkg/api/source_policy.go:252-257 | The text test for escaping the repository is the segment test |
| `SchemaPaths.NormalizedShape` | pkg/api/source_policy.go:240-257 | Normalized paths are clean, relative and inside the repository |
| `SchemaPaths.NormalizeIff` | pkg/api/source_policy.go:240-257 | Exactly which values normalize, and that the result is the path the value was |
| `SchemaPaths.CoversIff` | pkg/api/source_policy.go:216-238 | The prefix test is whole-segment: wildcard, same path, or a proper ancestor other than the root |
| `SchemaPaths.SchemaPathAllowed` | pkg/api/source_policy.go:216-238 | Exactly when a path is allowed, and for validated entries without regard to order |
| `SchemaPaths.AuthorizePlanSource` | pkg/api/source_policy.go:53-116 | The exact grounds of authorization, and the first unmet demand otherwise; an authorized plan satisfies the repository's boundary |
| `SchemaPaths.SchemaPathAllowedForRepo` | pkg/api/source_policy.go:139-155 | Exactly when some database of the repository allows the path |
| `SchemaPaths.RepoAllowed` | pkg/api/source_policy.go:199-210 | The wildcard or the trimmed name is listed |
| `SchemaPaths.ValidateSourcePolicy` | pkg/api/source_policy.go:161-197 | Accepts exactly trimmed distinct repositories and directories with distinct normal forms |
| `SchemaPaths.ValidEnvironmentSegment` | pkg/github/schema.go:128-133 | A single path segment |
| `SchemaPaths.EnvironmentIsChild` | pkg/github/schema.go:95-99 | An environment's root candidate is a direct child of the configuration directory |
| `SchemaPaths.WithinIff` | pkg/github/schema.go:177-184 | The text test for containment is the segment test |
| `SchemaPaths.ResolveSchemaRootSymlink` | pkg/github/schema.go:160-175 | Exactly which targets resolve, and that they lie inside the configuration directory |
| `Reviews.GetApprovedReviewers` | pkg/github/reviews.go:66-92 | Exactly the users whose latest decisive review approves, each once |
| `Reviews.ApprovesIff` | pkg/github/reviews.go:60-92 | In terms of the reviews: an approving one of the user that no later counting review follows |
| `Reviews.CommentsAreIgnored` | pkg/github/reviews.go:60-65 | A comment inserted anywhere changes nobody's approval |
| `Heartbeat.FreshThroughFourFailures` | pkg/api/operator.go:1250-1286 | Up to four failed ticks in a row keep the row younger than the staleness limit, for every poll interval |
| `Heartbeat.StaleIff` | pkg/api/operator.go:21-32 | Exactly how many failed ticks let it go stale |

## Left out

- Stored state strings are taken in canonical form; their normalization is not modelled.
- Heartbeat staleness inside the protocol: an active row may be re-leased at any time, which allows more runs than the clock does.
- Convergence of the parent after a lost compare-and-swap, and "at least one summary": the code leaves both to later polls.
- The re-read that tells an unchanged row from a lost swap; the model's swap is one atomic statement.
- Operation attempts, heartbeats and completion times of operation rows; retry claims' own gauge adjustments.
- The apply-wide target lock taken when a stopped apply is claimed.
- The data plane: engines, Tern clients and their RPCs appear only as parameters.
- Rollback task selection and rollback source validation.
- HTTP decoding, JSON, logging, metrics, tracing, error text, authentication and GitHub calls.
- Validation rules that do not concern routing; DSN resolution; the embedding hook that registers clients directly.
- Regular-expression lowercasing, table option restyling and parser-based canonicalization of DDL.
- Unicode case folding and white space: text is treated as ASCII.
- OneRowCutsOver: does not speak of tasks, because rolling rows of one deployment may swap tables in parallel; a "continue" row needs quiet expiries, because it passes failed rows and an overwritten expiry can reopen one.
- ClaimedInOrderIff: barrier work rows are covered by FirstClaim alone, because a row that left the cutover barrier no longer witnesses the order.
- ClaimedInOrder: the same rows; its two conditions are the readable special case of ClaimedInOrderIff.
- FinalIff: leaves out a row whose driver has claimed it and not yet loaded the parent, while the parent is terminal and mirrors to the row's own values; whether that row can change depends on whether any other driver can still move the parent first.
- FailureIsNeverLost: needs quiet expiries before the failure, because FailureIsOverwritten shows an expired failure can be lost; nothing is asked of what follows.
- CompletionIsEarned: runs in which an apply lease is taken are not covered, because the data plane then writes the parent itself.
- CompletionIsReachable: single-operation applies, which are driven under the apply lease, are left to LoneCompletionIsReachable.
- CompletedApplyRanEverything: finalizers, which have no tasks, and runs in which an apply lease is taken are not covered, because the data plane then writes the parent itself.
- FailedApplyHasReason: the same runs.
- SettleIsRun: covers multi-operation applies and work rows with tasks; a single-operation drive settles under its apply lease.
- NeverStalls: rows that wait for a retry, a start or a stop are left to NextRowIff, which says what each waits for.
- TimeColumns: runs with a step TimesKeptIff excludes are not covered, because that step breaks the columns.
- InterleavingsAreRuns: a handler call is atomic, the cutover request is not part of the protocol's store, and the data plane's immediate answer to a stop call appears as driver steps.
