/**
 What a rollout can still do: exactly when its next row can be claimed, that a healthy rollout never stalls and can
 always be driven to completion, and the one configuration in which it stalls.
 */
module RolloutProgress {
  import opened ApplyStates
  import opened ApplyRows
  import opened RolloutProtocol
  import opened RolloutRows
  import opened RolloutOrder
  import opened RolloutSteps

  // ---------------------------------------------------------------- the next row

  ghost predicate CanClaim(s: System, d: nat, i: nat) {
    Enabled(s, ClaimOperation(d, i)) || Enabled(s, ClaimCutover(d, i))
  }

  /** What the next row waits for, by its state. */
  predicate MayProceed(s: System, i: nat)
    requires i < |s.ops|
  {
    var row := s.ops[i];
    match row.state
    case Pending => !s.stop && (row.kind == Finalizer ==> FinalizerGate(s.ops, i))
    case Stopped => s.start
    case FailedRetryable =>
      Active(s.apply.state) || (s.apply.state == FailedRetryable && s.apply.attempt < MAX_RECOVERY_ATTEMPTS)
    case WaitingForCutover =>
      || row.cutover == Rolling
      || (!s.stop && !s.deferCutover)
      || (s.start && s.apply.state == WaitingForDeploy)
    case _ => Active(row.state)
  }

  /** A free driver can claim the first row that is not out of the way exactly when nothing it waits for is missing. */
  lemma NextRowIff(s: System, d: nat, i: nat)
    requires |s.ops| > 1 && d < |s.drivers| && s.drivers[d].drive == Free && i < |s.ops|
    requires forall j | 0 <= j < i :: OutOfTheWay(s.ops, i, j)
    ensures CanClaim(s, d, i) <==> MayProceed(s, i)
  {
    assert CopyGate(s.ops, i) && CutoverGate(s.ops, i);
  }

  /** Every finalizer comes after the work it waits for, as the fan-out queues them. */
  ghost predicate FinalizersLast(rows: seq<OpRow>) {
    forall f, w | 0 <= f < |rows| && 0 <= w < |rows| && rows[f].kind == Finalizer && IsWorkFor(rows, f, w) :: w < f
  }

  /** No finalizer waits for work that failed. */
  ghost predicate NoneStranded(rows: seq<OpRow>) {
    forall f, w | 0 <= f < |rows| && 0 <= w < |rows| && rows[f].kind == Finalizer && IsWorkFor(rows, f, w) ::
      rows[w].state != Failed
  }

  predicate Over(st: State) {
    st == Completed || st == Failed
  }

  /** A rollout that nobody stops, defers or retries, and whose failures its policy lets pass. */
  ghost predicate Healthy(s: System) {
    && |s.ops| > 1 && !s.stop && !s.deferCutover && FinalizersLast(s.ops) && NoneStranded(s.ops)
    && (forall i | 0 <= i < |s.ops| :: s.ops[i].state == Pending || Active(s.ops[i].state) || Over(s.ops[i].state))
    && ((exists i | 0 <= i < |s.ops| :: s.ops[i].state == Failed) ==>
          forall i | 0 <= i < |s.ops| :: s.ops[i].onFailure == Continue)
  }

  lemma {:induction false} FirstUnfinished(rows: seq<OpRow>, k: nat) returns (i: nat)
    requires k < |rows| && !Over(rows[k].state)
    ensures i <= k && !Over(rows[i].state) && forall j | 0 <= j < i :: Over(rows[j].state)
  {
    if m :| 0 <= m < k && !Over(rows[m].state) {
      i := FirstUnfinished(rows, m);
    } else {
      i := k;
    }
  }

  /** A healthy rollout never stalls: while a row is unfinished, a free driver can claim one. */
  lemma NeverStalls(s: System, d: nat, k: nat) returns (i: nat)
    requires Healthy(s) && d < |s.drivers| && s.drivers[d].drive == Free && k < |s.ops| && !Over(s.ops[k].state)
    ensures i < |s.ops| && CanClaim(s, d, i)
  {
    i := FirstUnfinished(s.ops, k);
    forall j | 0 <= j < i ensures OutOfTheWay(s.ops, i, j) {
      assert Over(s.ops[j].state);
    }
    if s.ops[i].kind == Finalizer {
      forall w | 0 <= w < |s.ops| && IsWorkFor(s.ops, i, w) ensures s.ops[w].state == Completed {
        assert w < i && Over(s.ops[w].state);
      }
    }
    NextRowIff(s, d, i);
  }

  // ---------------------------------------------------------------- where a rollout stalls

  /** A finalizer not yet started whose work failed for good. */
  ghost predicate Stranded(s: System, f: nat, w: nat) {
    && f < |s.ops| && w < |s.ops| && s.ops[f].kind == Finalizer && s.ops[f].state == Pending
    && IsWorkFor(s.ops, f, w) && s.ops[w].state == Failed && !Threatened(s, w)
  }

  lemma StrandedMove(s: System, t: System, d: int, e: RowEffect, f: nat, w: nat)
    requires Moves(s, t, d, e) && Leases(s) && |s.ops| > 1 && Stranded(s, f, w) && !e.StopAll?
    ensures t.ops[f] == s.ops[f] && Stranded(t, f, w)
  {
    SettledRowMove(s, t, d, e, w);
    RowMove(s, t, d, e, w);
    RowMove(s, t, d, e, f);
    assert RowOk(s, s.ops[f]);
    assert !FinalizerGate(s.ops, f);
    assert 0 <= d < |s.drivers| ==> DriveOk(s, s.drivers[d].drive);
  }

  /** A later deployment's row behind an unfinished one stays where it is. */
  lemma HeldBackMove(s: System, t: System, d: int, e: RowEffect, f: nat, i: nat)
    requires Moves(s, t, d, e) && Leases(s) && |s.ops| > 1 && !e.StopAll?
    requires f < i < |s.ops| && s.ops[f].state == Pending && s.ops[f].deployment != s.ops[i].deployment
    requires s.ops[i].kind == Work && s.ops[i].state == Pending
    ensures t.ops[i] == s.ops[i]
  {
    RowMove(s, t, d, e, i);
    assert RowOk(s, s.ops[i]);
    assert !CopyGate(s.ops, i) by {
      assert !OutOfTheWay(s.ops, i, f);
    }
    assert 0 <= d < |s.drivers| ==> DriveOk(s, s.drivers[d].drive);
  }

  lemma StrandedStep(s: System, step: Step, f: nat, w: nat)
    requires Enabled(s, step) && !step.StopPendingRows? && Leases(s) && |s.ops| > 1 && Stranded(s, f, w)
    ensures Leases(Perform(s, step)) && Stranded(Perform(s, step), f, w) && Perform(s, step).ops[f] == s.ops[f]
  {
    StepMoves(s, step);
    StrandedMove(s, Perform(s, step), Actor(step), RowEffectOf(s, step), f, w);
    LeasesStep(s, step);
  }

  lemma HeldBackStep(s: System, step: Step, f: nat, i: nat)
    requires Enabled(s, step) && !step.StopPendingRows? && Leases(s) && |s.ops| > 1
    requires f < i < |s.ops| && s.ops[f].state == Pending && s.ops[f].deployment != s.ops[i].deployment
    requires s.ops[i].kind == Work && s.ops[i].state == Pending
    ensures Perform(s, step).ops[i] == s.ops[i]
  {
    StepMoves(s, step);
    HeldBackMove(s, Perform(s, step), Actor(step), RowEffectOf(s, step), f, i);
  }

  ghost predicate NoSweep(steps: seq<Step>) {
    forall k | 0 <= k < |steps| :: !steps[k].StopPendingRows?
  }

  /**
   A failed shard strands its namespace's finalizer, whatever the on_failure policy: until a stop sweeps it, the
   finalizer is never started.
   */
  lemma {:induction false} StrandedForever(s: System, steps: seq<Step>, f: nat, w: nat)
    requires ValidRun(s, steps) && NoSweep(steps) && Leases(s) && |s.ops| > 1 && Stranded(s, f, w)
    ensures Stranded(Execute(s, steps), f, w) && Execute(s, steps).ops[f] == s.ops[f]
    decreases |steps|
  {
    if steps != [] {
      StrandedStep(s, steps[0], f, w);
      StrandedForever(Perform(s, steps[0]), steps[1..], f, w);
    }
  }

  /** And neither is any later deployment that has not started yet. */
  lemma {:induction false} HeldBackForever(s: System, steps: seq<Step>, f: nat, w: nat, i: nat)
    requires ValidRun(s, steps) && NoSweep(steps) && Leases(s) && |s.ops| > 1 && Stranded(s, f, w)
    requires f < i < |s.ops| && s.ops[f].deployment != s.ops[i].deployment
    requires s.ops[i].kind == Work && s.ops[i].state == Pending
    ensures Execute(s, steps).ops[i] == s.ops[i]
    decreases |steps|
  {
    if steps != [] {
      StrandedStep(s, steps[0], f, w);
      HeldBackStep(s, steps[0], f, i);
      HeldBackForever(Perform(s, steps[0]), steps[1..], f, w, i);
    }
  }

  /** So under "continue" the apply is reported as running degraded for ever. */
  lemma StrandedRunsDegraded(s: System, steps: seq<Step>, f: nat, w: nat)
    requires ValidRun(s, steps) && NoSweep(steps) && Leases(s) && |s.ops| > 1 && Stranded(s, f, w)
    requires forall i | 0 <= i < |s.ops| :: s.ops[i].onFailure == Continue
    ensures Projected(Execute(s, steps).ops) == RunningDegraded
  {
    var t := Execute(s, steps);
    StrandedForever(s, steps, f, w);
    forall i | 0 <= i < |t.ops| ensures t.ops[i].onFailure == Continue {
      PlansStay(s, steps, i);
    }
    assert t.ops[w].state == Failed && !Terminal(t.ops[f].state);
    ProjectedIff(t.ops);
  }

  lemma {:induction false} PlansStay(s: System, steps: seq<Step>, i: nat)
    requires ValidRun(s, steps) && Leases(s) && i < |s.ops|
    ensures SamePlan(s.ops[i], Execute(s, steps).ops[i])
    decreases |steps|
  {
    if steps != [] {
      var t := Perform(s, steps[0]);
      StepMoves(s, steps[0]);
      RowMove(s, t, Actor(steps[0]), RowEffectOf(s, steps[0]), i);
      LeasesStep(s, steps[0]);
      PlansStay(t, steps[1..], i);
    }
  }

  // ---------------------------------------------------------------- completion is in reach

  /** A fresh parent and a driver's own state; rows and tasks as given. */
  ghost predicate Fresh(s: System) {
    && s.apply.state == Pending && !s.stop && !s.deferCutover && |s.drivers| > 0
    && |s.ops| > 1 && |s.tasks| == |s.ops| && s.nextToken > 0
    && FinalizersLast(s.ops) && forall i | 0 <= i < |s.ops| && s.ops[i].kind == Work :: s.tasks[i] != []
  }

  /** The first n rows are completed, the others wait. */
  ghost predicate DoneTo(rows: seq<OpRow>, n: nat) {
    && n <= |rows| && (forall j | 0 <= j < n :: rows[j].state == Completed)
    && forall j | n <= j < |rows| :: rows[j].state == Pending
  }

  /** Driver 0 works on row i with drive v; the rows before it are completed and those behind it wait. */
  ghost predicate Working(s: System, i: nat, v: Drive) {
    && Fresh(s) && i < |s.ops| && s.drivers[0] == Driver(v, Resting, None)
    && (forall j | 0 <= j < i :: s.ops[j].state == Completed)
    && (forall j | i < j < |s.ops| :: s.ops[j].state == Pending)
  }

  ghost predicate Ready(s: System, i: nat) {
    Fresh(s) && DoneTo(s.ops, i) && s.drivers[0] == Driver(Free, Resting, None)
  }

  lemma PlansKept(rows: seq<OpRow>, i: nat, row: OpRow)
    requires i < |rows| && SamePlan(rows[i], row) && FinalizersLast(rows)
    ensures FinalizersLast(rows[i := row])
  {
    var rows' := rows[i := row];
    assert forall j | 0 <= j < |rows| :: SamePlan(rows[j], rows'[j]);
    forall f, w | 0 <= f < |rows'| && 0 <= w < |rows'| && rows'[f].kind == Finalizer && IsWorkFor(rows', f, w)
      ensures w < f
    {
      assert IsWorkFor(rows, f, w);
    }
  }

  /** Claiming the next row and loading the parent. */
  lemma BeginRow(s: System, i: nat) returns (steps: seq<Step>, t: System)
    requires Ready(s, i) && i < |s.ops|
    ensures Leads(s, steps, t) && Working(t, i, Driving(i, s.nextToken, None)) && t.ops[i].token == s.nextToken
    ensures t.ops[i].kind == s.ops[i].kind && |t.ops| == |s.ops|
  {
    assert StartGate(s.ops, i) by {
      if s.ops[i].kind == Finalizer {
        forall w | 0 <= w < |s.ops| && IsWorkFor(s.ops, i, w) ensures s.ops[w].state == Completed {
          assert w < i;
        }
      } else {
        assert forall j | 0 <= j < i :: OutOfTheWay(s.ops, i, j);
      }
    }
    ClaimGoes(s, 0, i);
    var u := Perform(s, ClaimOperation(0, i));
    PlansKept(s.ops, i, u.ops[i]);
    t := LoadClaimed(u, i, s.nextToken);
    RolloutRows.One(s, ClaimOperation(0, i));
    steps := [ClaimOperation(0, i)];
    Extend(s, steps, u, LoadParent(0), t);
    steps := steps + [LoadParent(0)];
  }

  /** Driving the remaining tasks of a work row to a state. */
  lemma {:induction false} DriveTasks(s: System, i: nat, n: nat, k: nat, st: State)
    returns (steps: seq<Step>, t: System)
    requires Working(s, i, Driving(i, n, None)) && n > 0 && s.ops[i].token == n && k <= |s.tasks[i]|
    requires forall j | 0 <= j < k :: s.tasks[i][j].state == st
    ensures Leads(s, steps, t) && Working(t, i, Driving(i, n, None)) && t.ops == s.ops && |t.tasks[i]| == |s.tasks[i]|
    ensures forall j | 0 <= j < |t.tasks[i]| :: t.tasks[i][j].state == st
    decreases |s.tasks[i]| - k
  {
    if k == |s.tasks[i]| {
      steps, t := [], s;
    } else {
      var drive := DriveTask(0, i, k, Task(st, ""));
      DriveTaskGoes(s, 0, k, Task(st, ""));
      var rest;
      rest, t := DriveTasks(Perform(s, drive), i, n, k + 1, st);
      Prepend(s, drive, rest, [drive] + rest, t);
      steps := [drive] + rest;
    }
  }

  /** Row i is settled in the state and its driver still holds it. */
  ghost predicate SettledAs(s: System, i: nat, n: nat, st: State) {
    && Working(s, i, Finished(i, n, None, false)) && s.ops[i].state == st && s.ops[i].token == n > 0
  }

  lemma AllAlike(ts: seq<Task>, st: State)
    requires ts != [] && (st == Completed || st == WaitingForCutover) && forall k | 0 <= k < |ts| :: ts[k].state == st
    ensures Derive(TaskStates(ts)) == st
  {
    var ss := TaskStates(ts);
    assert ss[0] in ss;
    UndecidedIff(ss);
  }

  lemma ReadAlike(s: System, i: nat, n: nat, st: State) returns (u: System)
    requires Working(s, i, Driving(i, n, None)) && s.ops[i].kind == Work && (st == Completed || st == WaitingForCutover)
    requires forall j | 0 <= j < |s.tasks[i]| :: s.tasks[i][j].state == st
    ensures Goes(s, ReadTasks(0), u) && u.ops == s.ops && u.tasks == s.tasks
    ensures Working(u, i, Deriving(i, n, None, st, FirstFailedTaskError(s.tasks[i])))
  {
    AllAlike(s.tasks[i], st);
    ReadGoes(s, 0, st, FirstFailedTaskError(s.tasks[i]));
    u := Perform(s, ReadTasks(0));
  }

  lemma SettleAlike(u: System, i: nat, n: nat, st: State, message: string) returns (t: System)
    requires Working(u, i, Deriving(i, n, None, st, message)) && n > 0 && u.ops[i].token == n
    requires st == Completed || st == WaitingForCutover
    ensures Goes(u, SettleFromTasks(0), t) && SettledAs(t, i, n, st) && SamePlans(u, t)
  {
    SettleGoes(u, 0);
    t := Perform(u, SettleFromTasks(0));
    PlansKept(u.ops, i, t.ops[i]);
  }

  lemma SettleWork(s: System, i: nat, n: nat, st: State) returns (steps: seq<Step>, t: System)
    requires Working(s, i, Driving(i, n, None)) && n > 0 && s.ops[i].token == n && s.ops[i].kind == Work
    requires st == Completed || st == WaitingForCutover
    requires forall j | 0 <= j < |s.tasks[i]| :: s.tasks[i][j].state == st
    ensures Leads(s, steps, t) && SettledAs(t, i, n, st) && SamePlans(s, t)
  {
    var u := ReadAlike(s, i, n, st);
    t := SettleAlike(u, i, n, st, FirstFailedTaskError(s.tasks[i]));
    RolloutRows.One(s, ReadTasks(0));
    Extend(s, [ReadTasks(0)], u, SettleFromTasks(0), t);
    steps := [ReadTasks(0)] + [SettleFromTasks(0)];
  }

  ghost predicate SamePlans(s: System, t: System) {
    |t.ops| == |s.ops| && forall i | 0 <= i < |s.ops| :: SamePlan(s.ops[i], t.ops[i])
  }

  lemma SettleFinalizer(s: System, i: nat, n: nat) returns (steps: seq<Step>, t: System)
    requires Working(s, i, Driving(i, n, None)) && n > 0 && s.ops[i].token == n && s.ops[i].kind == Finalizer
    ensures Leads(s, steps, t) && SettledAs(t, i, n, Completed) && |t.ops| == |s.ops|
  {
    ReportGoes(s, 0, Completed);
    t := Perform(s, SettleReported(0, Completed, ""));
    PlansKept(s.ops, i, t.ops[i]);
    RolloutRows.One(s, SettleReported(0, Completed, ""));
    steps := [SettleReported(0, Completed, "")];
  }

  lemma DriveTo(s: System, i: nat, n: nat, st: State) returns (steps: seq<Step>, t: System)
    requires Working(s, i, Driving(i, n, None)) && n > 0 && s.ops[i].token == n && s.ops[i].kind == Work
    requires st == Completed || st == WaitingForCutover
    ensures Leads(s, steps, t) && SettledAs(t, i, n, st) && SamePlans(s, t)
  {
    var u, more;
    steps, u := DriveTasks(s, i, n, 0, st);
    more, t := SettleWork(u, i, n, st);
    AppendTo(s, steps, u, more, t);
    steps := steps + more;
  }

  lemma Release(s: System, i: nat, n: nat, st: State) returns (u: System)
    requires SettledAs(s, i, n, st)
    ensures Goes(s, Abandon(0), u) && Working(u, i, Free) && u.ops == s.ops && u.nextToken == s.nextToken + 1
  {
    AbandonGoes(s, 0);
    u := Perform(s, Abandon(0));
  }

  lemma ClaimParked(u: System, i: nat) returns (v: System)
    requires Working(u, i, Free) && u.ops[i].state == WaitingForCutover && u.ops[i].cutover == Barrier
    ensures Goes(u, ClaimCutover(0, i), v) && Working(v, i, Claimed(i, u.nextToken))
    ensures v.ops[i].token == u.nextToken && v.ops[i].kind == u.ops[i].kind && |v.ops| == |u.ops|
  {
    assert forall j | 0 <= j < i :: OutOfTheWay(u.ops, i, j);
    ClaimCutoverGoes(u, 0, i);
    v := Perform(u, ClaimCutover(0, i));
    PlansKept(u.ops, i, v.ops[i]);
  }

  lemma LoadClaimed(v: System, i: nat, n: nat) returns (t: System)
    requires Working(v, i, Claimed(i, n))
    ensures Goes(v, LoadParent(0), t) && Working(t, i, Driving(i, n, None)) && t.ops == v.ops
  {
    LoadGoes(v, 0);
    t := Perform(v, LoadParent(0));
  }

  /** A parked barrier row is handed to the cutover claim and loaded. */
  lemma BeginCutover(s: System, i: nat, n: nat) returns (steps: seq<Step>, t: System)
    requires SettledAs(s, i, n, WaitingForCutover) && s.ops[i].cutover == Barrier && s.ops[i].kind == Work
    ensures Leads(s, steps, t) && Working(t, i, Driving(i, s.nextToken + 1, None))
    ensures t.ops[i].token == s.nextToken + 1 && t.ops[i].kind == Work && |t.ops| == |s.ops|
  {
    var u := Release(s, i, n, WaitingForCutover);
    var v := ClaimParked(u, i);
    t := LoadClaimed(v, i, u.nextToken);
    RolloutRows.One(s, Abandon(0));
    Extend(s, [Abandon(0)], u, ClaimCutover(0, i), v);
    steps := [Abandon(0)] + [ClaimCutover(0, i)];
    Extend(s, steps, v, LoadParent(0), t);
    steps := steps + [LoadParent(0)];
  }

  /** A barrier row parks at the barrier first and is completed by its cutover claim. */
  lemma CompleteBarrier(s: System, i: nat, n: nat) returns (steps: seq<Step>, t: System, m: nat)
    requires Working(s, i, Driving(i, n, None)) && n > 0 && s.ops[i].token == n
    requires s.ops[i].kind == Work && s.ops[i].cutover == Barrier
    ensures Leads(s, steps, t) && SettledAs(t, i, m, Completed) && |t.ops| == |s.ops|
  {
    var u, v, more;
    steps, u := DriveTo(s, i, n, WaitingForCutover);
    assert SamePlan(s.ops[i], u.ops[i]);
    more, v := BeginCutover(u, i, n);
    AppendTo(s, steps, u, more, v);
    steps := steps + more;
    m := u.nextToken + 1;
    more, t := DriveTo(v, i, m, Completed);
    AppendTo(s, steps, v, more, t);
    steps := steps + more;
  }

  lemma CompleteRow(s: System, i: nat) returns (steps: seq<Step>, t: System, n: nat)
    requires Ready(s, i) && i < |s.ops|
    ensures Leads(s, steps, t) && SettledAs(t, i, n, Completed) && |t.ops| == |s.ops|
  {
    var u, more;
    n := s.nextToken;
    steps, u := BeginRow(s, i);
    if u.ops[i].kind == Finalizer {
      more, t := SettleFinalizer(u, i, n);
    } else if u.ops[i].cutover == Barrier {
      more, t, n := CompleteBarrier(u, i, n);
    } else {
      more, t := DriveTo(u, i, n, Completed);
    }
    AppendTo(s, steps, u, more, t);
    steps := steps + more;
  }

  /** The last projection reports the completed rollout. */
  lemma ReportCompletion(s: System, i: nat, n: nat) returns (steps: seq<Step>, t: System)
    requires SettledAs(s, i, n, Completed) && i == |s.ops| - 1
    ensures Leads(s, steps, t) && t.apply.state == Completed && t.ops == s.ops
  {
    CompletedVerdict(s.ops);
    steps, t := ProjectionRun(s, 0, 0);
  }

  lemma CompletedVerdict(rows: seq<OpRow>)
    requires rows != [] && forall i | 0 <= i < |rows| :: rows[i].state == Completed
    ensures Projected(rows) == Completed
  {
    ProjectedIff(rows);
    UndecidedIff(States(Children(rows)));
  }

  lemma {:induction false} CompleteFrom(s: System, i: nat) returns (steps: seq<Step>, t: System)
    requires Ready(s, i) && i < |s.ops|
    ensures Leads(s, steps, t) && t.apply.state == Completed && AllDone(t.ops)
    decreases |s.ops| - i
  {
    var u, more, n;
    steps, u, n := CompleteRow(s, i);
    if i == |s.ops| - 1 {
      more, t := ReportCompletion(u, i, n);
      AppendTo(s, steps, u, more, t);
      steps := steps + more;
    } else {
      var v := Release(u, i, n, Completed);
      Extend(s, steps, u, Abandon(0), v);
      steps := steps + [Abandon(0)];
      more, t := CompleteFrom(v, i + 1);
      AppendTo(s, steps, v, more, t);
      steps := steps + more;
    }
  }

  ghost predicate AllDone(rows: seq<OpRow>) {
    forall i | 0 <= i < |rows| :: rows[i].state == Completed
  }

  /**
   Completion is in reach: every freshly queued rollout whose finalizers follow their work and whose cutover is not
   deferred, whatever its policies, has a run in which every row and the apply are completed.
   */
  lemma CompletionIsReachable(s: System) returns (steps: seq<Step>)
    requires Initial(s) && !s.deferCutover && |s.ops| > 1 && |s.drivers| > 0 && FinalizersLast(s.ops)
    ensures ValidRun(s, steps) && Execute(s, steps).apply.state == Completed && AllDone(Execute(s, steps).ops)
  {
    var t;
    steps, t := CompleteFrom(s, 0);
  }
}
