/**
 The operator's apply protocol as a state machine over one stored apply.

 Any number of drivers, in any number of processes, take steps in any order. Each
 step is at most one storage statement, so a projection's parent read, row listing
 and compare-and-swap are three steps that other drivers may interleave with, and
 every snapshot a driver carries may be stale. Heartbeat staleness is not tracked:
 an active row may be re-leased at any moment, which allows more runs than the
 clock would.
 */
module RolloutProtocol {
  import opened ApplyStates
  import opened ApplyRows

  /** Where a driver is in its drive, with the leases and snapshots it carries. */
  datatype Drive =
    | Free
    | Claimed(op: nat, token: nat)
    | Mirroring(op: nat, lease: Lease, parent: ApplyRow)
    | Driving(op: nat, token: nat, parentToken: Option<nat>)
    | Deriving(op: nat, token: nat, parentToken: Option<nat>, derived: State, message: string)
    | Finished(op: nat, token: nat, parentToken: Option<nat>, stopSeen: bool)
    | Stopping(parentLease: nat)

  datatype Projection =
    | Resting
    | Loaded(parent: ApplyRow, lease: Lease, reopen: bool)
    | Listed(parent: ApplyRow, lease: Lease, reopen: bool, rows: seq<OpRow>)

  /** `won` is the terminal swap this driver won and has not published yet. */
  datatype Driver = Driver(drive: Drive, projection: Projection, won: Option<nat>)

  datatype SwapEvent = SwapEvent(before: State, after: State)

  datatype System = System(
    apply: ApplyRow,
    ops: seq<OpRow>,
    tasks: seq<seq<Task>>,
    stop: bool,
    start: bool,
    deferCutover: bool,
    nextToken: nat,
    gauge: int,
    direct: int,
    swaps: seq<SwapEvent>,
    published: seq<nat>,
    drivers: seq<Driver>)

  datatype Step =
    | ClaimOperation(d: nat, op: nat)
    | ClaimCutover(d: nat, op: nat)
    | ClaimStop(d: nat)
    | ClaimParent(d: nat)
    | LoadParent(d: nat)
    | LoadUnclaimable(d: nat)
    | Mirror(d: nat)
    | DriveTask(d: nat, op: nat, task: nat, value: Task)
    | DriveRow(d: nat, state: State)
    | WriteParent(d: nat, state: State, startedAt: Option<nat>, completedAt: Option<nat>, error: string)
    | ReadTasks(d: nat)
    | SettleFromTasks(d: nat)
    | SettleReported(d: nat, state: State, error: string)
    | SettleTaskless(d: nat)
    | SeeStop(d: nat)
    | StopPendingRows(d: nat)
    | LoadForProjection(d: nat)
    | ListRows(d: nat)
    | SwapParent(d: nat, now: nat)
    | Publish(d: nat)
    | CompleteStop(d: nat)
    | Abandon(d: nat)
    | FinishStop(d: nat)
    | RequestStop
    | RequestStart(remote: bool)
    | SyncStopped(now: nat)
    | CloseStop
    | FinishStart
    | Expire(now: nat, aged: bool)

  predicate ByDriver(step: Step) {
    !step.RequestStop? && !ByStart(step) && !step.CloseStop? && !step.FinishStart? && !step.Expire?
  }

  /** The start handler's own writes; they carry no lease. */
  predicate ByStart(step: Step) {
    step.RequestStart? || step.SyncStopped?
  }

  predicate HasTasks(tasks: seq<seq<Task>>) {
    exists i | 0 <= i < |tasks| :: tasks[i] != []
  }

  predicate HasStoppedTask(tasks: seq<seq<Task>>) {
    exists i, k | 0 <= i < |tasks| && 0 <= k < |tasks[i]| :: tasks[i][k].state == Stopped
  }

  // ---------------------------------------------------------------- leases a driver carries

  /** Authorizes parent writes, projections and sibling stops. */
  function DriveLease(v: Drive): Lease {
    match v
    case Driving(i, t, p) => if p.Some? then ByApply(p.value) else ByOp(i, t)
    case Deriving(i, t, p, _, _) => if p.Some? then ByApply(p.value) else ByOp(i, t)
    case Finished(i, t, p, _) => if p.Some? then ByApply(p.value) else ByOp(i, t)
    case Stopping(t) => ByApply(t)
    case _ => NoLease
  }

  /** The apply lease a driver holds for direct parent writes, if any. */
  function ParentLease(v: Drive): Option<nat> {
    match v
    case Driving(_, _, p) => p
    case Deriving(_, _, p, _, _) => p
    case Finished(_, _, p, _) => p
    case Stopping(t) => Some(t)
    case _ => None
  }

  predicate Leased(v: Drive) {
    v.Driving? || v.Finished? || v.Stopping?
  }

  // ---------------------------------------------------------------- claims

  const MAX_RECOVERY_ATTEMPTS: nat := 10

  predicate CopyClaimable(s: System, i: nat)
    requires i < |s.ops|
  {
    var row := s.ops[i];
    || (row.state == Pending && !s.stop && StartGate(s.ops, i))
    || (Active(row.state) && !(row.state == WaitingForCutover && row.cutover == Barrier && |s.ops| > 1))
    || (row.state == Stopped && s.start)
    || (Active(row.state) && s.apply.state == WaitingForDeploy && s.start)
    || (row.state == FailedRetryable
        && ((s.apply.state == FailedRetryable && s.apply.attempt < MAX_RECOVERY_ATTEMPTS) || Active(s.apply.state)))
  }

  function CopyClaimState(s: State): State {
    if s == Pending then Running else if s == Stopped then Resuming else s
  }

  predicate CutoverClaimable(s: System, i: nat)
    requires i < |s.ops|
  {
    var row := s.ops[i];
    && row.cutover == Barrier && |s.ops| > 1 && !s.deferCutover
    && (|| (row.state == WaitingForCutover && CutoverGate(s.ops, i) && !s.stop)
        || row.state == CuttingOver || row.state == RevertWindow)
  }

  function CutoverClaimState(s: State): State {
    if s == WaitingForCutover then CuttingOver else s
  }

  predicate ParentClaimable(s: System) {
    || s.apply.state == Pending || Active(s.apply.state)
    || (s.apply.state == FailedRetryable && s.apply.attempt < MAX_RECOVERY_ATTEMPTS)
    || (s.apply.state == Stopped && s.start)
  }

  // ---------------------------------------------------------------- enabledness

  /** Rows settled without reading tasks: a finalizer from its drive, a lone task-less row from its parent's state. */
  predicate Reportable(s: System, i: nat, st: State) {
    && i < |s.ops|
    && (|| (s.ops[i].kind == Finalizer && (st == Completed || st == Failed))
        || (s.ops[i].kind == Work && |s.ops| == 1 && i < |s.tasks| && s.tasks[i] == [] && Persistable(st)))
  }

  /** A deferred deploy, or stopped work; a remote data plane vouches for the stopped work itself. */
  predicate Startable(s: System, remote: bool) {
    || s.apply.state == WaitingForDeploy
    || ((s.apply.state == Stopped || RunningFamily(s.apply.state)) && (remote || HasStoppedTask(s.tasks)))
  }

  /** States in which a start may find that the remote data plane already stopped. */
  predicate Syncable(st: State) {
    st == WaitingForDeploy || st == Pending || RunningFamily(st)
  }

  predicate Enabled(s: System, step: Step) {
    && (ByDriver(step) ==> step.d < |s.drivers|)
    && match step
       case ClaimOperation(d, i) => s.drivers[d].drive.Free? && i < |s.ops| && CopyClaimable(s, i)
       case ClaimCutover(d, i) => s.drivers[d].drive.Free? && i < |s.ops| && CutoverClaimable(s, i)
       case ClaimStop(d) => s.drivers[d].drive.Free? && StopReconcilable(s.apply, s.ops, s.stop)
       case ClaimParent(d) => s.drivers[d].drive.Claimed? && |s.ops| == 1 && ParentClaimable(s)
       case LoadParent(d) => s.drivers[d].drive.Claimed?
       case LoadUnclaimable(d) => s.drivers[d].drive.Claimed? && |s.ops| == 1
       case Mirror(d) => s.drivers[d].drive.Mirroring?
       case DriveTask(d, i, k, _) =>
         && i < |s.tasks| && k < |s.tasks[i]|
         && (s.drivers[d].drive.Stopping? || (s.drivers[d].drive.Driving? && s.drivers[d].drive.op == i))
       case DriveRow(d, st) =>
         && s.drivers[d].drive.Driving? && s.drivers[d].drive.op < |s.ops|
         && (st == Stopped || st == Cancelled || (st == Running && s.ops[s.drivers[d].drive.op].kind == Finalizer))
       case WriteParent(d, _, _, _, _) => ParentLease(s.drivers[d].drive).Some?
       case ReadTasks(d) => s.drivers[d].drive.Driving? && s.drivers[d].drive.op < |s.tasks|
       case SettleFromTasks(d) => s.drivers[d].drive.Deriving?
       case SettleReported(d, st, _) => s.drivers[d].drive.Driving? && Reportable(s, s.drivers[d].drive.op, st)
       case SettleTaskless(d) =>
         s.drivers[d].drive.Driving? && s.drivers[d].drive.op < |s.tasks| && s.tasks[s.drivers[d].drive.op] == []
       case SeeStop(d) => s.drivers[d].drive.Finished? && s.stop
       case StopPendingRows(d) =>
         s.drivers[d].drive.Stopping? || (s.drivers[d].drive.Finished? && s.drivers[d].drive.stopSeen)
       case LoadForProjection(d) => Leased(s.drivers[d].drive)
       case ListRows(d) => s.drivers[d].projection.Loaded?
       case SwapParent(d, _) => s.drivers[d].projection.Listed?
       case Publish(d) => s.drivers[d].won.Some?
       case CompleteStop(d) => (s.drivers[d].drive.Finished? || s.drivers[d].drive.Stopping?) && Terminal(s.apply.state)
       case Abandon(_) => true
       case RequestStop => !s.stop && !Terminal(s.apply.state) && HasTasks(s.tasks)
       case RequestStart(remote) => !s.stop && !s.start && Startable(s, remote)
       case SyncStopped(_) => s.stop && Syncable(s.apply.state)
       case CloseStop => s.stop && Terminal(s.apply.state)
       case FinishStop(d) => ParentLease(s.drivers[d].drive).Some?
       case FinishStart => true
       case Expire(_, aged) =>
         s.apply.state == FailedRetryable && (aged || s.apply.attempt >= MAX_RECOVERY_ATTEMPTS)
  }

  // ---------------------------------------------------------------- effects on the operation rows

  datatype RowEffect =
    | NoRow
    | Rotate(op: nat, state: State)
    | Write(op: nat, state: State, error: string)
    | StopAll
    | ExpireAll

  /** A guarded row write: it happens only while the lease is current. */
  function Guarded(s: System, lease: Lease, op: nat, state: State, error: string): RowEffect {
    if op < |s.ops| && LeaseHolds(s.apply, s.ops, lease) then Write(op, state, error) else NoRow
  }

  function SettledEffect(s: System, v: Drive): RowEffect
    requires v.Deriving?
  {
    if Persistable(v.derived) then Guarded(s, ByOp(v.op, v.token), v.op, v.derived, v.message) else NoRow
  }

  function RowEffectOf(s: System, step: Step): (e: RowEffect)
    requires Enabled(s, step)
    ensures e.StopAll? ==> step.StopPendingRows?
    ensures e.ExpireAll? ==> step.Expire?
    ensures e.Rotate? ==> step.ClaimOperation? || step.ClaimCutover?
    ensures e.Write? ==> ByDriver(step)
  {
    match step
    case ClaimOperation(_, i) => Rotate(i, CopyClaimState(s.ops[i].state))
    case ClaimCutover(_, i) => Rotate(i, CutoverClaimState(s.ops[i].state))
    case Mirror(d) => (
      var v := s.drivers[d].drive;
      if Persistable(v.parent.state) then Guarded(s, v.lease, v.op, v.parent.state, v.parent.error) else NoRow)
    case DriveRow(d, st) => (var v := s.drivers[d].drive; Guarded(s, ByOp(v.op, v.token), v.op, st, ""))
    case SettleFromTasks(d) => SettledEffect(s, s.drivers[d].drive)
    case SettleReported(d, st, e) => (var v := s.drivers[d].drive; Guarded(s, ByOp(v.op, v.token), v.op, st, e))
    case SettleTaskless(d) => (
      var v := s.drivers[d].drive;
      Guarded(s, ByOp(v.op, v.token), v.op, Failed, "operation has no tasks; invalid or stale claim"))
    case StopPendingRows(d) =>
      if LeaseHolds(s.apply, s.ops, DriveLease(s.drivers[d].drive)) then StopAll else NoRow
    case Expire(_, _) => ExpireAll
    case _ => NoRow
  }

  function RowsAfter(rows: seq<OpRow>, e: RowEffect, token: nat): (r: seq<OpRow>)
    ensures |r| == |rows|
  {
    match e
    case NoRow => rows
    case Rotate(i, st) => if i < |rows| then rows[i := rows[i].(state := st, token := token)] else rows
    case Write(i, st, m) => if i < |rows| then rows[i := WithState(rows[i], st, m)] else rows
    case StopAll => StopPending(rows)
    case ExpireAll => ExpireRetryable(rows)
  }

  // ---------------------------------------------------------------- effects on the parent row

  /** The swap a listed projection performs, if its guards hold; a lost lease or a moved state performs none. */
  function SwapOf(s: System, d: nat, now: nat): Option<Decision>
    requires d < |s.drivers| && s.drivers[d].projection.Listed?
    ensures SwapOf(s, d, now).Some? ==> SwapOf(s, d, now).value.Swap?
  {
    var p := s.drivers[d].projection;
    var decision := Decide(p.parent, p.rows, p.reopen, now);
    if decision.Swap? && LeaseHolds(s.apply, s.ops, p.lease) && s.apply.state == p.parent.state
    then Some(decision) else None
  }

  function ParentAfter(s: System, step: Step): ApplyRow
    requires Enabled(s, step)
  {
    match step
    case ClaimStop(_) => ClaimedParent(s.apply, s.nextToken)
    case ClaimParent(_) => ClaimedParent(s.apply, s.nextToken)
    case ClaimOperation(_, i) =>
      // Re-dispatching a retryable row of a multi-operation apply consumes one unit of the parent's budget.
      if && s.ops[i].state == FailedRetryable && |s.ops| > 1
         && s.apply.state == FailedRetryable && s.apply.attempt < MAX_RECOVERY_ATTEMPTS
      then s.apply.(attempt := s.apply.attempt + 1) else s.apply
    case Expire(now, _) =>
      s.apply.(state := Failed, completedAt := if s.apply.completedAt.Some? then s.apply.completedAt else Some(now))
    case RequestStart(_) =>
      if RunningFamily(s.apply.state) then s.apply.(state := Stopped, completedAt := None) else s.apply
    case SyncStopped(now) => s.apply.(state := Stopped, completedAt := Some(now))
    case WriteParent(d, st, started, completed, e) =>
      if LeaseHolds(s.apply, s.ops, ByApply(ParentLease(s.drivers[d].drive).value))
      then s.apply.(state := st, startedAt := started, completedAt := completed, error := e) else s.apply
    case SwapParent(d, now) => (
      var swap := SwapOf(s, d, now);
      if swap.Some? then Swapped(s.apply, swap.value) else s.apply)
    case _ => s.apply
  }

  /** Adjustment of the active-apply gauge by the projection that won the swap. */
  function GaugeDelta(s: System, step: Step): int
    requires Enabled(s, step)
  {
    if !step.SwapParent? then 0
    else
      var swap := SwapOf(s, step.d, step.now);
      if swap.None? || |s.drivers[step.d].projection.rows| <= 1 then 0
      else if !Terminal(s.drivers[step.d].projection.parent.state) && Terminal(swap.value.state) then -1
      else if Terminal(s.drivers[step.d].projection.parent.state) && !Terminal(swap.value.state) then 1
      else 0
  }

  /** Apply-level claims and the writes made under them. */
  predicate TakesApplyLease(step: Step) {
    step.ClaimStop? || step.ClaimParent? || step.WriteParent?
  }

  predicate MovesParentDirectly(step: Step) {
    TakesApplyLease(step) || step.Expire? || ByStart(step)
  }

  /** Liveness change made by writers other than projections: apply-level claims and writes, retry expiry, starts. */
  function DirectDelta(s: System, step: Step): int
    requires Enabled(s, step)
  {
    if MovesParentDirectly(step) then Live(ParentAfter(s, step)) - Live(s.apply) else 0
  }

  /** This projection won the swap that terminalized a multi-operation parent. */
  predicate BecameTerminal(s: System, step: Step)
    requires Enabled(s, step) && step.SwapParent?
  {
    var swap := SwapOf(s, step.d, step.now);
    && swap.Some? && |s.drivers[step.d].projection.rows| > 1
    && !Terminal(s.drivers[step.d].projection.parent.state) && Terminal(swap.value.state)
  }

  // ---------------------------------------------------------------- effect on the acting driver

  function DriveAfter(s: System, step: Step): Drive
    requires Enabled(s, step) && ByDriver(step)
  {
    var v := s.drivers[step.d].drive;
    match step
    case ClaimOperation(_, i) => Claimed(i, s.nextToken)
    case ClaimCutover(_, i) => Claimed(i, s.nextToken)
    case ClaimStop(_) => Stopping(s.nextToken)
    case ClaimParent(_) => Driving(v.op, v.token, Some(s.nextToken))
    case LoadParent(_) =>
      if Terminal(s.apply.state) then Mirroring(v.op, ByOp(v.op, v.token), s.apply) else Driving(v.op, v.token, None)
    case LoadUnclaimable(_) => if Terminal(s.apply.state) then Mirroring(v.op, NoLease, s.apply) else Free
    case Mirror(_) => Free
    case ReadTasks(_) =>
      Deriving(v.op, v.token, v.parentToken, Derive(TaskStates(s.tasks[v.op])), FirstFailedTaskError(s.tasks[v.op]))
    case SettleFromTasks(_) =>
      if RowEffectOf(s, step).Write? then Finished(v.op, v.token, v.parentToken, false) else Free
    case SettleReported(_, _, _) =>
      if RowEffectOf(s, step).Write? then Finished(v.op, v.token, v.parentToken, false) else Free
    case SettleTaskless(_) =>
      if RowEffectOf(s, step).Write? then Finished(v.op, v.token, v.parentToken, false) else Free
    case SeeStop(_) => Finished(v.op, v.token, v.parentToken, true)
    case Abandon(_) => Free
    case _ => v
  }

  function ProjectionAfter(s: System, step: Step): Projection
    requires Enabled(s, step) && ByDriver(step)
  {
    var p := s.drivers[step.d].projection;
    match step
    case Mirror(d) => (
      var v := s.drivers[d].drive;
      if RowEffectOf(s, step).Write? then Loaded(v.parent, v.lease, false) else Resting)
    case LoadForProjection(d) => Loaded(s.apply, DriveLease(s.drivers[d].drive), true)
    case ListRows(_) => Listed(p.parent, p.lease, p.reopen, s.ops)
    case SwapParent(_, _) => Resting
    case Abandon(_) => Resting
    case _ => p
  }

  function WonAfter(s: System, step: Step): Option<nat>
    requires Enabled(s, step) && ByDriver(step)
  {
    if step.SwapParent? then if BecameTerminal(s, step) then Some(|s.swaps|) else None
    else if step.Publish? || step.Abandon? then None
    else s.drivers[step.d].won
  }

  // ---------------------------------------------------------------- steps and runs

  /** Expiry fails every unfinished task of the apply. */
  function ExpiredTasks(tasks: seq<seq<Task>>): seq<seq<Task>> {
    seq(|tasks|, i requires 0 <= i < |tasks| =>
      seq(|tasks[i]|, k requires 0 <= k < |tasks[i]| =>
        if TerminalTask(tasks[i][k].state) then tasks[i][k] else tasks[i][k].(state := Failed)))
  }

  function TasksAfter(s: System, step: Step): seq<seq<Task>>
    requires Enabled(s, step)
  {
    if step.Expire? then ExpiredTasks(s.tasks)
    else if !step.DriveTask? then s.tasks
    else
      var v := s.drivers[step.d].drive;
      var lease := if v.Driving? then ByOp(v.op, v.token) else DriveLease(v);
      if LeaseHolds(s.apply, s.ops, lease)
      then s.tasks[step.op := s.tasks[step.op][step.task := step.value]] else s.tasks
  }

  /** A stop request is completed by a resolved apply, or by the data plane a stop reconciliation drives. */
  function StopAfter(s: System, step: Step): bool
    requires Enabled(s, step)
  {
    match step
    case RequestStop => true
    case SyncStopped(_) => false
    case CloseStop => false
    case CompleteStop(d) => s.stop && !LeaseHolds(s.apply, s.ops, StopGuard(s.drivers[d].drive))
    case FinishStop(d) => s.stop && !LeaseHolds(s.apply, s.ops, StopGuard(s.drivers[d].drive))
    case _ => s.stop
  }

  /** Completing a control request is guarded by the apply lease when the caller carries one. */
  function StopGuard(v: Drive): Lease {
    if ParentLease(v).Some? then ByApply(ParentLease(v).value) else NoLease
  }

  function StartAfter(s: System, step: Step): bool {
    match step
    case RequestStart(_) => true
    case FinishStart => false
    case _ => s.start
  }

  function SwapsAfter(s: System, step: Step): seq<SwapEvent>
    requires Enabled(s, step)
  {
    if step.SwapParent? && SwapOf(s, step.d, step.now).Some?
    then s.swaps + [SwapEvent(s.apply.state, SwapOf(s, step.d, step.now).value.state)] else s.swaps
  }

  /** The summary is published only if the reloaded parent is still terminal. */
  function PublishedAfter(s: System, step: Step): seq<nat>
    requires Enabled(s, step)
  {
    if step.Publish? && Terminal(s.apply.state) then s.published + [s.drivers[step.d].won.value] else s.published
  }

  function ActingDriver(s: System, step: Step): Driver
    requires Enabled(s, step) && ByDriver(step)
  {
    Driver(DriveAfter(s, step), ProjectionAfter(s, step), WonAfter(s, step))
  }

  function DriversAfter(s: System, step: Step): (r: seq<Driver>)
    requires Enabled(s, step)
    ensures |r| == |s.drivers|
  {
    if ByDriver(step) then s.drivers[step.d := ActingDriver(s, step)] else s.drivers
  }

  function Perform(s: System, step: Step): (t: System)
    requires Enabled(s, step)
    ensures |t.ops| == |s.ops| && |t.drivers| == |s.drivers|
  {
    System(
      ParentAfter(s, step),
      RowsAfter(s.ops, RowEffectOf(s, step), s.nextToken),
      TasksAfter(s, step),
      StopAfter(s, step),
      StartAfter(s, step),
      s.deferCutover,
      s.nextToken + 1,
      s.gauge + GaugeDelta(s, step),
      s.direct + DirectDelta(s, step),
      SwapsAfter(s, step),
      PublishedAfter(s, step),
      DriversAfter(s, step))
  }

  ghost predicate ValidRun(s: System, steps: seq<Step>)
    decreases |steps|
  {
    steps == [] || (Enabled(s, steps[0]) && ValidRun(Perform(s, steps[0]), steps[1..]))
  }

  ghost function Execute(s: System, steps: seq<Step>): (t: System)
    requires ValidRun(s, steps)
    ensures |t.ops| == |s.ops|
    decreases |steps|
  {
    if steps == [] then s else Execute(Perform(s, steps[0]), steps[1..])
  }

  /**
   A freshly queued apply: rows pending and unclaimed, work rows with tasks (a lone one may have none), no driver
   engaged.
   */
  ghost predicate Initial(s: System) {
    && s.apply == ApplyRow(Pending, 0, 0, None, None, "")
    && s.ops != [] && (forall i | 0 <= i < |s.ops| :: s.ops[i].state == Pending && s.ops[i].token == 0)
    && |s.tasks| == |s.ops|
    && (forall i | 0 <= i < |s.ops| && s.ops[i].kind == Work :: s.tasks[i] != [] || |s.ops| == 1)
    && !s.stop && !s.start && s.nextToken > 0 && s.swaps == [] && s.published == []
    && (forall d | 0 <= d < |s.drivers| :: s.drivers[d] == Driver(Free, Resting, None))
  }
}
