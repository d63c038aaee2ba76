/**
 The stored rows of one apply, the lease guards on its write statements, and the
 decision a projection takes between listing the operation rows and swapping the
 parent row.
 */
module ApplyRows {
  import opened ApplyStates

  datatype Option<+T> = None | Some(value: T)

  datatype Kind = Work | Finalizer
  datatype CutoverPolicy = Rolling | Barrier
  /** Halt stands for every stored policy other than "continue": they all fail closed. */
  datatype OnFailure = Halt | Continue

  /** A token of 0 is a row that was never claimed. */
  datatype ApplyRow = ApplyRow(state: State, token: nat, attempt: nat, startedAt: Option<nat>, completedAt: Option<nat>,
                               error: string)

  datatype OpRow = OpRow(deployment: string, key: string, kind: Kind, cutover: CutoverPolicy, onFailure: OnFailure,
                         state: State, token: nat, error: string)

  datatype Task = Task(state: State, error: string)

  /** The capability a write statement carries. An operation lease is preferred to the apply lease. */
  datatype Lease = NoLease | ByApply(token: nat) | ByOp(op: nat, token: nat)

  predicate LeaseHolds(apply: ApplyRow, ops: seq<OpRow>, lease: Lease) {
    match lease
    case NoLease => true
    case ByApply(t) => t != 0 && apply.token == t
    case ByOp(i, t) => t != 0 && i < |ops| && ops[i].token == t
  }

  /** Active states whose driver can be replaced once its heartbeat is stale. */
  predicate Active(s: State) {
    s in {Running, RunningDegraded, Resuming, WaitingForDeploy, WaitingForCutover, Recovering, CuttingOver,
          RevertWindow, PreparingBranch, ApplyingBranchChanges, ValidatingBranch,
          CreatingDeployRequest, ValidatingDeployRequest}
  }

  /** All apply states but the terminal ones and the waiting ones: pending, retryable, paused. Only tasks checksum. */
  lemma ActiveIff(s: State)
    ensures Active(s) <==> !Terminal(s) && s !in {Pending, FailedRetryable, Paused, Checksumming}
  {
  }

  function Live(row: ApplyRow): int {
    if Terminal(row.state) then 0 else 1
  }

  // ---------------------------------------------------------------- operation rows

  /** Derived states that are written onto an operation row; every other state leaves it claimable. */
  predicate Persistable(s: State) {
    Terminal(s) || s == FailedRetryable || s == WaitingForCutover
  }

  /** Only the failed write touches the error column. */
  function WithState(row: OpRow, s: State, error: string): (r: OpRow)
    ensures r.token == row.token && r.state == s
    ensures r.(state := row.state, error := row.error) == row
    ensures r.error == if s == Failed then error else row.error
  {
    if s == Failed then row.(state := s, error := error) else row.(state := s)
  }

  function StopPending(rows: seq<OpRow>): (r: seq<OpRow>)
    ensures |r| == |rows|
    ensures forall i | 0 <= i < |rows| ::
              r[i] == if rows[i].state == Pending then rows[i].(state := Stopped) else rows[i]
  {
    seq(|rows|, i requires 0 <= i < |rows| => if rows[i].state == Pending then rows[i].(state := Stopped) else rows[i])
  }

  /** Rows still retryable when their apply's retries expire are failed in place; their leases are not rotated. */
  function ExpireRetryable(rows: seq<OpRow>): (r: seq<OpRow>)
    ensures |r| == |rows|
    ensures forall i | 0 <= i < |rows| ::
              r[i] == if rows[i].state == FailedRetryable then rows[i].(state := Failed) else rows[i]
  {
    seq(|rows|, i requires 0 <= i < |rows| =>
      if rows[i].state == FailedRetryable then rows[i].(state := Failed) else rows[i])
  }

  function TaskStates(ts: seq<Task>): (ss: seq<State>)
    ensures |ss| == |ts|
    ensures forall i | 0 <= i < |ts| :: ss[i] == ts[i].state
  {
    seq(|ts|, i requires 0 <= i < |ts| => ts[i].state)
  }

  function FirstFailedTaskError(ts: seq<Task>): string {
    if ts == [] then ""
    else if ts[0].state == Failed && ts[0].error != "" then ts[0].error
    else FirstFailedTaskError(ts[1..])
  }

  function FirstFailedOperationMessage(rows: seq<OpRow>): string {
    if rows == [] then ""
    else if rows[0].state == Failed && rows[0].error != "" then
      "deployment " + rows[0].deployment + " failed: " + rows[0].error
    else FirstFailedOperationMessage(rows[1..])
  }

  // ---------------------------------------------------------------- claim gates

  /** Characters before the first '/': the namespace that groups work with its finalizer. */
  function KeyNamespace(key: string): (ns: string)
    ensures ns <= key && '/' !in ns
  {
    if key == "" || key[0] == '/' then "" else [key[0]] + KeyNamespace(key[1..])
  }

  /** An earlier row that stops gating row i: finished, or failed under i's continue policy. */
  predicate OutOfTheWay(rows: seq<OpRow>, i: nat, j: nat)
    requires i < |rows| && j < |rows|
  {
    rows[j].state == Completed || (rows[i].onFailure == Continue && rows[j].state == Failed)
  }

  predicate AtBarrier(s: State) {
    s == WaitingForCutover || s == CuttingOver || s == RevertWindow || s == Completed
  }

  /** Deployment order for starting a work row: rolling waits for completion, barrier for the cutover barrier. */
  predicate CopyGate(rows: seq<OpRow>, i: nat)
    requires i < |rows|
  {
    forall j | 0 <= j < i && rows[j].deployment != rows[i].deployment ::
      OutOfTheWay(rows, i, j) || (rows[i].cutover == Barrier && AtBarrier(rows[j].state))
  }

  predicate IsWorkFor(rows: seq<OpRow>, i: nat, j: nat)
    requires i < |rows| && j < |rows|
  {
    && rows[j].deployment == rows[i].deployment && rows[j].kind == Work
    && KeyNamespace(rows[j].key) == KeyNamespace(rows[i].key)
  }

  /** A finalizer waits for every work row of its deployment and namespace. */
  predicate FinalizerGate(rows: seq<OpRow>, i: nat)
    requires i < |rows|
  {
    forall j | 0 <= j < |rows| && IsWorkFor(rows, i, j) :: rows[j].state == Completed
  }

  /** Every earlier row, whatever its deployment, is out of the way before a swap starts. */
  predicate CutoverGate(rows: seq<OpRow>, i: nat)
    requires i < |rows|
  {
    forall j | 0 <= j < i :: OutOfTheWay(rows, i, j)
  }

  predicate StartGate(rows: seq<OpRow>, i: nat)
    requires i < |rows|
  {
    if rows[i].kind == Work then CopyGate(rows, i) else FinalizerGate(rows, i)
  }

  // ---------------------------------------------------------------- apply-level claims

  /** An apply-level claim starts a waiting apply; a stopped one goes through resuming. */
  function ParentClaimState(s: State): State {
    if s == Pending || s == FailedRetryable then Running else if s == Stopped then Resuming else s
  }

  /** Rotates the apply lease; a changed state also clears the completion time and, on a retry, the last error. */
  function ClaimedParent(row: ApplyRow, token: nat): ApplyRow {
    if ParentClaimState(row.state) == row.state then row.(token := token)
    else row.(state := ParentClaimState(row.state), token := token, completedAt := None,
              attempt := if row.state == FailedRetryable then row.attempt + 1 else row.attempt,
              error := if row.state == FailedRetryable then "" else row.error)
  }

  /** A pending stop that no operation claim will ever carry: some row is pending and none is active. */
  predicate StopReconcilable(apply: ApplyRow, ops: seq<OpRow>, stop: bool) {
    && (apply.state == Pending || Active(apply.state)) && stop
    && (exists i | 0 <= i < |ops| :: ops[i].state == Pending)
    && (forall i | 0 <= i < |ops| :: !Active(ops[i].state))
  }

  // ---------------------------------------------------------------- projection

  function Children(rows: seq<OpRow>): (cs: seq<Child>)
    ensures |cs| == |rows|
    ensures forall i | 0 <= i < |rows| :: cs[i] == Child(rows[i].state, rows[i].onFailure == Continue, false)
  {
    seq(|rows|, i requires 0 <= i < |rows| => Child(rows[i].state, rows[i].onFailure == Continue, false))
  }

  function BaseState(rows: seq<OpRow>): State {
    Derive(States(Children(rows)))
  }

  function Projected(rows: seq<OpRow>): State {
    Rollout(Children(rows))
  }

  /**
   What the rows project to. A failed row fails the apply when its policy is not to continue or when nothing is left to
   run; while every failed row lets the rollout continue and something is left, the apply runs degraded.
   */
  lemma ProjectedIff(rows: seq<OpRow>)
    ensures (forall i | 0 <= i < |rows| :: rows[i].state != Failed) ==> Projected(rows) == BaseState(rows)
    ensures Projected(rows) == Failed <==>
            && (exists i | 0 <= i < |rows| :: rows[i].state == Failed)
            && (|| (exists i | 0 <= i < |rows| :: rows[i].state == Failed && rows[i].onFailure == Halt)
                || (forall i | 0 <= i < |rows| :: Terminal(rows[i].state)))
    ensures Projected(rows) == RunningDegraded <==>
            && (exists i | 0 <= i < |rows| :: rows[i].state == Failed)
            && (exists i | 0 <= i < |rows| :: !Terminal(rows[i].state))
            && (forall i | 0 <= i < |rows| :: rows[i].state == Failed ==> rows[i].onFailure == Continue)
    ensures Projected(rows) != Paused
  {
    var cs := Children(rows);
    RolloutIff(cs);
    assert forall i | 0 <= i < |rows| :: cs[i].state == rows[i].state;
    assert forall i | 0 <= i < |rows| :: HardFailure(cs[i]) <==> rows[i].state == Failed && rows[i].onFailure == Halt;
    assert forall i | 0 <= i < |rows| :: !HoldsRollout(cs, i);
  }

  /** Refuse is the error outcome, Keep the no-op match, Swap the column values handed to the compare-and-swap. */
  datatype Decision =
    | Refuse
    | Keep
    | Swap(state: State, error: string, startedAt: Option<nat>, completedAt: Option<nat>)

  predicate Reopens(parent: ApplyRow, rows: seq<OpRow>, reopen: bool) {
    reopen && parent.state == Failed && BaseState(rows) == Failed && Projected(rows) == RunningDegraded
  }

  function CompletionTime(parent: ApplyRow, derived: State, now: nat): Option<nat> {
    if derived == Stopped || !Terminal(derived) then None
    else if parent.completedAt.Some? then parent.completedAt
    else Some(now)
  }

  /** What a projection decides from its (possibly stale) parent snapshot and row listing. */
  function Decide(parent: ApplyRow, rows: seq<OpRow>, reopen: bool, now: nat): Decision {
    var derived := Projected(rows);
    if rows == [] then Refuse
    else if Terminal(parent.state) && !Terminal(derived) && !Reopens(parent, rows, reopen) then Refuse
    else
      var startedAt := if parent.startedAt.None? && derived != Pending then Some(now) else None;
      if parent.state == derived && startedAt.None? then Keep
      else
        var message := FirstFailedOperationMessage(rows);
        Swap(derived, if derived == Failed && message != "" then message else parent.error, startedAt,
             CompletionTime(parent, derived, now))
  }

  /** The compare-and-swap statement's effect once its guards hold: started_at is written only while unset. */
  function Swapped(row: ApplyRow, d: Decision): ApplyRow
    requires d.Swap?
  {
    row.(state := d.state, error := d.error, completedAt := d.completedAt,
         startedAt := if row.startedAt.Some? then row.startedAt else d.startedAt)
  }
}
