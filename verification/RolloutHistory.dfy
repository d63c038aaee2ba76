/**
 What a driver acts on goes back to moments of the run: the stop it carries out, the
 parent and the rows it projects, the tasks it settles its row from. So every verdict
 that reaches the store was true of the store at some earlier moment.
 */
module RolloutHistory {
  import opened ApplyStates
  import opened ApplyRows
  import opened RolloutProtocol
  import opened RolloutParent
  import opened RolloutRows
  import RolloutProgress
  import RolloutVerdict

  // ---------------------------------------------------------------- moments of a run

  /** The system after the first k steps. */
  ghost function At(s: System, steps: seq<Step>, k: nat): (t: System)
    requires ValidRun(s, steps) && k <= |steps|
    ensures |t.drivers| == |s.drivers| && |t.ops| == |s.ops|
    decreases k
  {
    if k == 0 then s else At(Perform(s, steps[0]), steps[1..], k - 1)
  }

  lemma {:induction false} AtNext(s: System, steps: seq<Step>, k: nat)
    requires ValidRun(s, steps) && k < |steps|
    ensures Enabled(At(s, steps, k), steps[k]) && At(s, steps, k + 1) == Perform(At(s, steps, k), steps[k])
    decreases k
  {
    if k > 0 {
      AtNext(Perform(s, steps[0]), steps[1..], k - 1);
    }
  }

  lemma {:induction false} AtIsRun(s: System, steps: seq<Step>, k: nat)
    requires ValidRun(s, steps) && k <= |steps|
    ensures ValidRun(s, steps[..k]) && Execute(s, steps[..k]) == At(s, steps, k)
    decreases k
  {
    if k > 0 {
      AtIsRun(Perform(s, steps[0]), steps[1..], k - 1);
      assert steps[..k][0] == steps[0] && steps[..k][1..] == steps[1..][..k - 1];
    }
  }

  /** Where a sequence that ends in another value than it started with took on its last value. */
  lemma {:induction false} LastChange<T>(xs: seq<T>, n: nat) returns (k: nat)
    requires n < |xs| && xs[0] != xs[n]
    ensures k < n && xs[k] != xs[n] && xs[k + 1] == xs[n]
    decreases n
  {
    if xs[n - 1] == xs[n] {
      k := LastChange(xs, n - 1);
    } else {
      k := n - 1;
    }
  }

  /** The drives and projections a driver went through. */
  ghost function Drives(s: System, steps: seq<Step>, d: nat): (vs: seq<Drive>)
    requires ValidRun(s, steps) && d < |s.drivers|
    ensures |vs| == |steps| + 1
    ensures forall k | 0 <= k <= |steps| :: vs[k] == At(s, steps, k).drivers[d].drive
  {
    seq(|steps| + 1, k requires 0 <= k <= |steps| => At(s, steps, k).drivers[d].drive)
  }

  ghost function Projections(s: System, steps: seq<Step>, d: nat): (ps: seq<Projection>)
    requires ValidRun(s, steps) && d < |s.drivers|
    ensures |ps| == |steps| + 1
    ensures forall k | 0 <= k <= |steps| :: ps[k] == At(s, steps, k).drivers[d].projection
  {
    seq(|steps| + 1, k requires 0 <= k <= |steps| => At(s, steps, k).drivers[d].projection)
  }

  /** The states a row and the parent went through. */
  ghost function RowStates(s: System, steps: seq<Step>, i: nat): (ss: seq<State>)
    requires ValidRun(s, steps) && i < |s.ops|
    ensures |ss| == |steps| + 1 && ss[0] == s.ops[i].state
    ensures forall k | 0 <= k <= |steps| :: ss[k] == At(s, steps, k).ops[i].state
  {
    seq(|steps| + 1, k requires 0 <= k <= |steps| => At(s, steps, k).ops[i].state)
  }

  ghost function ParentStates(s: System, steps: seq<Step>): (ss: seq<State>)
    requires ValidRun(s, steps)
    ensures |ss| == |steps| + 1 && ss[0] == s.apply.state
    ensures forall k | 0 <= k <= |steps| :: ss[k] == At(s, steps, k).apply.state
  {
    seq(|steps| + 1, k requires 0 <= k <= |steps| => At(s, steps, k).apply.state)
  }

  lemma AtStart(s: System, steps: seq<Step>, d: nat)
    requires Initial(s) && ValidRun(s, steps) && d < |s.drivers|
    ensures At(s, steps, 0) == s && s.drivers[d] == Driver(Free, Resting, None)
  {
  }

  lemma AtEnd(s: System, steps: seq<Step>)
    requires ValidRun(s, steps)
    ensures At(s, steps, |steps|) == Execute(s, steps)
  {
    AtIsRun(s, steps, |steps|);
    assert steps[..|steps|] == steps;
  }

  lemma LeasesAt(s: System, steps: seq<Step>, k: nat)
    requires Initial(s) && ValidRun(s, steps) && k <= |steps|
    ensures Leases(At(s, steps, k))
  {
    AtIsRun(s, steps, k);
    InitialLeases(s);
    LeasesInv(s, steps[..k]);
  }

  // ---------------------------------------------------------------- a sweep goes back to a stop

  /** The drive may stop pending rows: it finished and saw a stop, or it was claimed to carry one out. */
  predicate MaySweep(v: Drive) {
    v.Stopping? || (v.Finished? && v.stopSeen)
  }

  lemma SweepStarts(s: System, step: Step, d: nat)
    requires Enabled(s, step) && d < |s.drivers| && MaySweep(DriversAfter(s, step)[d].drive)
    ensures MaySweep(s.drivers[d].drive) || (s.stop && (step == SeeStop(d) || step == ClaimStop(d)))
  {
  }

  /** A driver that may sweep found a stop request pending, at a step of its own. */
  lemma StopWasSeen(s: System, steps: seq<Step>, d: nat, n: nat) returns (k: nat)
    requires Initial(s) && ValidRun(s, steps) && n <= |steps| && d < |s.drivers|
    requires MaySweep(At(s, steps, n).drivers[d].drive)
    ensures k < n && (steps[k] == SeeStop(d) || steps[k] == ClaimStop(d)) && At(s, steps, k).stop
  {
    var vs := Drives(s, steps, d);
    AtStart(s, steps, d);
    k := LastChange(seq(n + 1, j requires 0 <= j <= n => MaySweep(vs[j])), n);
    AtNext(s, steps, k);
    SweepStarts(At(s, steps, k), steps[k], d);
  }

  /** The step that marks a pending row of several stopped is a sweep. */
  lemma StopsByUnclaimed(s: System, step: Step, i: nat)
    requires Enabled(s, step) && Leases(s) && i < |s.ops|
    requires s.ops[i].state == Pending && Perform(s, step).ops[i].state == Stopped
    ensures step.StopPendingRows? && MaySweep(s.drivers[step.d].drive)
  {
    StepMoves(s, step);
    RowMove(s, Perform(s, step), Actor(step), RowEffectOf(s, step), i);
    assert RowOk(s, s.ops[i]);
    assert ByDriver(step) ==> DriveOk(s, s.drivers[step.d].drive);
  }

  /**
   Nobody stops rows unasked: whenever a step of a run from a fresh apply marks a pending row stopped, its driver
   found a stop request pending earlier in that run.
   */
  lemma SweepsAreAsked(s: System, steps: seq<Step>, n: nat, i: nat) returns (k: nat)
    requires Initial(s) && ValidRun(s, steps) && n < |steps| && i < |s.ops|
    requires At(s, steps, n).ops[i].state == Pending && At(s, steps, n + 1).ops[i].state == Stopped
    ensures steps[n].StopPendingRows? && k < n && At(s, steps, k).stop
    ensures steps[k] == SeeStop(steps[n].d) || steps[k] == ClaimStop(steps[n].d)
  {
    AtNext(s, steps, n);
    LeasesAt(s, steps, n);
    StopsByUnclaimed(At(s, steps, n), steps[n], i);
    k := StopWasSeen(s, steps, steps[n].d, n);
  }

  // ---------------------------------------------------------------- a projection goes back to two moments

  predicate LoadsParent(step: Step, d: nat) {
    step == LoadParent(d) || step == LoadUnclaimable(d)
  }

  lemma MirrorStarts(s: System, step: Step, d: nat)
    requires Enabled(s, step) && d < |s.drivers| && DriversAfter(s, step)[d].drive.Mirroring?
    ensures DriversAfter(s, step)[d].drive == s.drivers[d].drive
            || (LoadsParent(step, d) && DriversAfter(s, step)[d].drive.parent == s.apply)
  {
  }

  /** The parent a driver mirrors is the parent as it was when the driver loaded it. */
  lemma MirrorMoment(s: System, steps: seq<Step>, d: nat, n: nat) returns (k: nat)
    requires Initial(s) && ValidRun(s, steps) && n <= |steps| && d < |s.drivers|
    requires At(s, steps, n).drivers[d].drive.Mirroring?
    ensures k < n && LoadsParent(steps[k], d) && At(s, steps, k).apply == At(s, steps, n).drivers[d].drive.parent
  {
    AtStart(s, steps, d);
    k := LastChange(Drives(s, steps, d), n);
    AtNext(s, steps, k);
    MirrorStarts(At(s, steps, k), steps[k], d);
  }

  /** A projection's parent snapshot, and whether it carries the right to reopen. */
  function Snapshot(p: Projection): Option<(ApplyRow, bool)> {
    if p.Resting? then None else Some((p.parent, p.reopen))
  }

  lemma LoadStarts(s: System, step: Step, d: nat)
    requires Enabled(s, step) && d < |s.drivers| && !DriversAfter(s, step)[d].projection.Resting?
    ensures var p, q := s.drivers[d].projection, DriversAfter(s, step)[d].projection;
            || Snapshot(q) == Snapshot(p)
            || (step == LoadForProjection(d) && Leased(s.drivers[d].drive) && q.parent == s.apply && q.reopen)
            || (&& step == Mirror(d) && s.drivers[d].drive.Mirroring? && !q.reopen
                && q.parent == s.drivers[d].drive.parent)
  {
  }

  /** Where a projection's parent snapshot was taken, and that only a load in the middle of a drive may reopen. */
  ghost predicate TakenAt(s: System, steps: seq<Step>, d: nat, k: nat, parent: ApplyRow, reopen: bool)
    requires ValidRun(s, steps) && d < |s.drivers|
  {
    && k < |steps| && At(s, steps, k).apply == parent
    && (if reopen then steps[k] == LoadForProjection(d) && Leased(At(s, steps, k).drivers[d].drive)
        else LoadsParent(steps[k], d))
  }

  /** The parent snapshot of a projection is the parent as it was at an earlier step of its driver. */
  lemma ParentMoment(s: System, steps: seq<Step>, d: nat, n: nat) returns (k: nat)
    requires Initial(s) && ValidRun(s, steps) && n <= |steps| && d < |s.drivers|
    requires !At(s, steps, n).drivers[d].projection.Resting?
    ensures var p := At(s, steps, n).drivers[d].projection; k < n && TakenAt(s, steps, d, k, p.parent, p.reopen)
  {
    AtStart(s, steps, d);
    var ps := Projections(s, steps, d);
    var m := LastChange(seq(n + 1, j requires 0 <= j <= n => Snapshot(ps[j])), n);
    AtNext(s, steps, m);
    LoadStarts(At(s, steps, m), steps[m], d);
    k := m;
    if steps[m].Mirror? {
      k := MirrorMoment(s, steps, d, m);
    }
  }

  lemma ListingStarts(s: System, step: Step, d: nat)
    requires Enabled(s, step) && d < |s.drivers| && DriversAfter(s, step)[d].projection.Listed?
    ensures var p, q := s.drivers[d].projection, DriversAfter(s, step)[d].projection;
            || p == q
            || (step == ListRows(d) && p.Loaded? && Snapshot(q) == Snapshot(p) && q.rows == s.ops)
  {
  }

  /** A listed projection: the parent of one moment and the rows of a later one. */
  lemma ListingMoment(s: System, steps: seq<Step>, d: nat, n: nat) returns (k: nat, l: nat)
    requires Initial(s) && ValidRun(s, steps) && n <= |steps| && d < |s.drivers|
    requires At(s, steps, n).drivers[d].projection.Listed?
    ensures var p := At(s, steps, n).drivers[d].projection;
            && k < l < n && TakenAt(s, steps, d, k, p.parent, p.reopen)
            && steps[l] == ListRows(d) && At(s, steps, l).ops == p.rows
  {
    AtStart(s, steps, d);
    l := LastChange(Projections(s, steps, d), n);
    AtNext(s, steps, l);
    ListingStarts(At(s, steps, l), steps[l], d);
    k := ParentMoment(s, steps, d, l);
  }

  /**
   Every swap a projection wins is of three moments: it read the parent at k, listed the rows at l, and at n found the
   parent in the state of k and moved it to the projection of the rows of l. One that revives a finished parent read it
   failed, for the projection, in the middle of its driver's drive, and listed rows that were failed themselves.
   */
  lemma SwapsGoBack(s: System, steps: seq<Step>, n: nat) returns (k: nat, l: nat)
    requires Initial(s) && ValidRun(s, steps) && n < |steps| && steps[n].SwapParent?
    requires At(s, steps, n + 1).apply.state != At(s, steps, n).apply.state
    ensures k < l < n && steps[l] == ListRows(steps[n].d) && steps[n].d < |s.drivers|
    ensures At(s, steps, n).apply.state == At(s, steps, k).apply.state
    ensures At(s, steps, n + 1).apply.state == Projected(At(s, steps, l).ops)
    ensures Terminal(At(s, steps, n).apply.state) && !Terminal(At(s, steps, n + 1).apply.state) ==>
              && At(s, steps, k).apply.state == Failed && BaseState(At(s, steps, l).ops) == Failed
              && steps[k] == LoadForProjection(steps[n].d) && Leased(At(s, steps, k).drivers[steps[n].d].drive)
  {
    AtNext(s, steps, n);
    k, l := ListingMoment(s, steps, steps[n].d, n);
    if Terminal(At(s, steps, n).apply.state) && !Terminal(At(s, steps, n + 1).apply.state) {
      OnlyRevivalsLeaveTerminal(At(s, steps, n), steps[n]);
    }
  }

  // ---------------------------------------------------------------- a row's verdict goes back to its tasks

  lemma DerivingStarts(s: System, step: Step, d: nat)
    requires Enabled(s, step) && d < |s.drivers| && DriversAfter(s, step)[d].drive.Deriving?
    ensures var w := DriversAfter(s, step)[d].drive;
            || w == s.drivers[d].drive
            || (&& step == ReadTasks(d) && w.op < |s.tasks| && w.derived == Derive(TaskStates(s.tasks[w.op]))
                && w.message == FirstFailedTaskError(s.tasks[w.op]))
  {
  }

  /** What a driver is about to settle is the state its row's tasks had when it read them. */
  lemma DerivingMoment(s: System, steps: seq<Step>, d: nat, n: nat) returns (k: nat)
    requires Initial(s) && ValidRun(s, steps) && n <= |steps| && d < |s.drivers|
    requires At(s, steps, n).drivers[d].drive.Deriving?
    ensures var w := At(s, steps, n).drivers[d].drive;
            && k < n && steps[k] == ReadTasks(d) && w.op < |At(s, steps, k).tasks|
            && w.derived == Derive(TaskStates(At(s, steps, k).tasks[w.op]))
  {
    AtStart(s, steps, d);
    k := LastChange(Drives(s, steps, d), n);
    AtNext(s, steps, k);
    DerivingStarts(At(s, steps, k), steps[k], d);
  }

  ghost predicate SameCounts(a: seq<seq<Task>>, b: seq<seq<Task>>) {
    |a| == |b| && forall i | 0 <= i < |a| :: |a[i]| == |b[i]|
  }

  /** Rows keep the number of their tasks. */
  lemma TasksStay(s: System, step: Step)
    requires Enabled(s, step)
    ensures SameCounts(s.tasks, TasksAfter(s, step))
  {
  }

  lemma {:induction false} CountsStay(s: System, steps: seq<Step>)
    requires ValidRun(s, steps)
    ensures SameCounts(s.tasks, Execute(s, steps).tasks)
    decreases |steps|
  {
    if steps != [] {
      TasksStay(s, steps[0]);
      CountsStay(Perform(s, steps[0]), steps[1..]);
    }
  }

  lemma TaskCounts(s: System, steps: seq<Step>, n: nat)
    requires ValidRun(s, steps) && n <= |steps|
    ensures SameCounts(s.tasks, At(s, steps, n).tasks)
  {
    AtIsRun(s, steps, n);
    CountsStay(s, steps[..n]);
  }

  lemma KindStays(s: System, steps: seq<Step>, n: nat, i: nat)
    requires Initial(s) && ValidRun(s, steps) && n <= |steps| && i < |s.ops|
    ensures At(s, steps, n).ops[i].kind == s.ops[i].kind
  {
    AtIsRun(s, steps, n);
    InitialLeases(s);
    RolloutProgress.PlansStay(s, steps[..n], i);
  }

  /** The verdicts that only a settled drive, a mirrored parent or expiry can bring about. */
  predicate Verdict(st: State) {
    st == Completed || st == Failed || st == FailedRetryable || st == Reverted || st == WaitingForCutover
  }

  function RowStateAfter(s: System, step: Step, i: nat): State
    requires Enabled(s, step) && i < |s.ops|
  {
    RowsAfter(s.ops, RowEffectOf(s, step), s.nextToken)[i].state
  }

  /** Such a verdict is written, or it is an expiry. */
  lemma VerdictEffect(s: System, step: Step, i: nat)
    requires Enabled(s, step) && i < |s.ops|
    requires Verdict(RowStateAfter(s, step, i)) && RowStateAfter(s, step, i) != s.ops[i].state
    ensures var e, st := RowEffectOf(s, step), RowStateAfter(s, step, i);
            (step.Expire? && st == Failed) || (e.Write? && e.op == i && e.state == st)
  {
  }

  lemma WrittenBy(s: System, step: Step, i: nat)
    requires Enabled(s, step) && |s.ops| > 1 && i < |s.ops| == |s.tasks| && s.ops[i].kind == Work && s.tasks[i] != []
    requires var e := RowEffectOf(s, step); e.Write? && e.op == i && Verdict(e.state)
    ensures var st := RowEffectOf(s, step).state;
            || (step.Mirror? && s.drivers[step.d].drive.Mirroring? && s.drivers[step.d].drive.parent.state == st)
            || (step.SettleFromTasks? && s.drivers[step.d].drive.Deriving? && s.drivers[step.d].drive.op == i
                && s.drivers[step.d].drive.derived == st)
  {
  }

  /** Which steps bring such a verdict to a work row with tasks. */
  lemma VerdictWriters(s: System, step: Step, i: nat)
    requires Enabled(s, step) && |s.ops| > 1 && i < |s.ops| == |s.tasks| && s.ops[i].kind == Work && s.tasks[i] != []
    requires Verdict(RowStateAfter(s, step, i)) && RowStateAfter(s, step, i) != s.ops[i].state
    ensures var st := RowStateAfter(s, step, i);
            || (step.Expire? && st == Failed)
            || (step.Mirror? && s.drivers[step.d].drive.Mirroring? && s.drivers[step.d].drive.parent.state == st)
            || (step.SettleFromTasks? && s.drivers[step.d].drive.Deriving? && s.drivers[step.d].drive.op == i
                && s.drivers[step.d].drive.derived == st)
  {
    VerdictEffect(s, step, i);
    if !step.Expire? {
      WrittenBy(s, step, i);
    }
  }

  /**
   Every verdict on a work row was true of something: of all its tasks when its driver read them, of the parent when its
   driver loaded it, or it is an expired retry.
   */
  lemma VerdictsAreBacked(s: System, steps: seq<Step>, n: nat, i: nat) returns (k: nat)
    requires Initial(s) && ValidRun(s, steps) && n < |steps| && |s.ops| > 1 && i < |s.ops| && s.ops[i].kind == Work
    requires Verdict(At(s, steps, n + 1).ops[i].state)
    requires At(s, steps, n + 1).ops[i].state != At(s, steps, n).ops[i].state
    ensures k <= n && |At(s, steps, k).tasks| == |s.ops|
    ensures var st := At(s, steps, n + 1).ops[i].state;
            || (steps[n].Expire? && st == Failed)
            || (steps[n].Mirror? && At(s, steps, k).apply.state == st && k < n)
            || (steps[n].SettleFromTasks? && steps[k] == ReadTasks(steps[n].d)
                && Derive(TaskStates(At(s, steps, k).tasks[i])) == st)
  {
    var m, step := At(s, steps, n), steps[n];
    AtNext(s, steps, n);
    TaskCounts(s, steps, n);
    KindStays(s, steps, n, i);
    VerdictWriters(m, step, i);
    k := n;
    if step.Mirror? {
      k := MirrorMoment(s, steps, step.d, n);
    } else if step.SettleFromTasks? {
      k := DerivingMoment(s, steps, step.d, n);
    }
    TaskCounts(s, steps, k);
  }

  // ---------------------------------------------------------------- a completed apply ran everything

  /** The first place where a sequence holds a value it did not start with. */
  lemma {:induction false} FirstHit<T>(xs: seq<T>, v: T, n: nat) returns (m: nat)
    requires n < |xs| && xs[n] == v && xs[0] != v
    ensures m < n && xs[m + 1] == v && forall j | 0 <= j <= m :: xs[j] != v
    decreases n
  {
    if j :| 0 <= j < n && xs[j] == v {
      m := FirstHit(xs, v, j);
    } else {
      m := n - 1;
    }
  }

  lemma AllTasksCompleted(ts: seq<Task>)
    requires Derive(TaskStates(ts)) == Completed
    ensures forall k | 0 <= k < |ts| :: ts[k].state == Completed
  {
    var ss := TaskStates(ts);
    UndecidedIff(ss);
    assert forall k | 0 <= k < |ts| :: ss[k] == ts[k].state && ss[k] in ss;
  }

  /**
   An apply that reports completion ran everything: for each of its work rows there was a moment at which the row's
   driver read every task of the row completed. However the drivers interleave, in every run without apply leases.
   */
  lemma CompletedApplyRanEverything(s: System, steps: seq<Step>, i: nat) returns (k: nat)
    requires Initial(s) && |s.ops| > 1 && ValidRun(s, steps) && NoApplyLease(steps)
    requires Execute(s, steps).apply.state == Completed && i < |s.ops| && s.ops[i].kind == Work
    ensures k < |steps| && steps[k].ReadTasks? && |At(s, steps, k).tasks| == |s.ops|
    ensures |At(s, steps, k).tasks[i]| == |s.tasks[i]| > 0
    ensures forall j | 0 <= j < |s.tasks[i]| :: At(s, steps, k).tasks[i][j].state == Completed
  {
    RolloutVerdict.CompletionIsEarned(s, steps);
    AtEnd(s, steps);
    var n := FirstHit(RowStates(s, steps, i), Completed, |steps|);
    k := VerdictsAreBacked(s, steps, n, i);
    if steps[n].Mirror? {
      AtIsRun(s, steps, k);
      assert NoApplyLease(steps[..k]);
      RolloutVerdict.CompletionIsEarned(s, steps[..k]);
    }
    TaskCounts(s, steps, k);
    AllTasksCompleted(At(s, steps, k).tasks[i]);
  }

  // ---------------------------------------------------------------- a failed apply failed for a reason

  ghost predicate SomeTaskFailed(tasks: seq<seq<Task>>) {
    exists i, j | 0 <= i < |tasks| && 0 <= j < |tasks[i]| :: tasks[i][j].state == Failed
  }

  /** What a failure can go back to: a failed task, a failed finalizer, a row without tasks, an expired retry. */
  ghost predicate FailsAt(s: System, steps: seq<Step>, k: nat)
    requires ValidRun(s, steps)
  {
    && k < |steps|
    && (|| (steps[k].ReadTasks? && SomeTaskFailed(At(s, steps, k).tasks))
        || (steps[k].SettleReported? && steps[k].state == Failed)
        || steps[k].SettleTaskless?
        || steps[k].Expire?)
  }

  lemma FailureWriters(s: System, step: Step, i: nat)
    requires Enabled(s, step) && |s.ops| > 1 && i < |s.ops|
    requires RowStateAfter(s, step, i) == Failed && s.ops[i].state != Failed
    ensures || step.Expire? || step.SettleTaskless?
            || (step.SettleReported? && step.state == Failed)
            || (step.Mirror? && s.drivers[step.d].drive.Mirroring? && s.drivers[step.d].drive.parent.state == Failed)
            || (step.SettleFromTasks? && s.drivers[step.d].drive.Deriving? && s.drivers[step.d].drive.derived == Failed)
  {
  }

  lemma FailedTask(tasks: seq<seq<Task>>, i: nat)
    requires i < |tasks| && Derive(TaskStates(tasks[i])) == Failed
    ensures SomeTaskFailed(tasks)
  {
    var ss := TaskStates(tasks[i]);
    DecidedIff(ss);
    var j :| 0 <= j < |ss| && ss[j] == Failed;
    assert tasks[i][j].state == Failed;
  }

  lemma RowFails(s: System, steps: seq<Step>, m: nat, i: nat) returns (k: nat)
    requires Initial(s) && ValidRun(s, steps) && |s.ops| > 1 && m < |steps| && i < |s.ops|
    requires At(s, steps, m + 1).ops[i].state == Failed && At(s, steps, m).ops[i].state != Failed
    ensures k <= m && (FailsAt(s, steps, k) || At(s, steps, k).apply.state == Failed)
  {
    AtNext(s, steps, m);
    FailureWriters(At(s, steps, m), steps[m], i);
    k := m;
    if steps[m].Mirror? {
      k := MirrorMoment(s, steps, steps[m].d, m);
    } else if steps[m].SettleFromTasks? {
      k := DerivingMoment(s, steps, steps[m].d, m);
      FailedTask(At(s, steps, k).tasks, At(s, steps, m).drivers[steps[m].d].drive.op);
    }
  }

  /** Where a row failed: the reason itself, or a mirror of a parent that had failed before. */
  lemma RowFailure(s: System, steps: seq<Step>, n: nat, i: nat) returns (k: nat)
    requires Initial(s) && ValidRun(s, steps) && |s.ops| > 1 && n <= |steps| && i < |s.ops|
    requires At(s, steps, n).ops[i].state == Failed
    ensures k < n && (FailsAt(s, steps, k) || At(s, steps, k).apply.state == Failed)
  {
    k := LastChange(RowStates(s, steps, i), n);
    k := RowFails(s, steps, k, i);
  }

  lemma ParentFails(s: System, steps: seq<Step>, m: nat)
    requires ValidRun(s, steps) && m < |steps| && !TakesApplyLease(steps[m])
    requires At(s, steps, m + 1).apply.state == Failed && At(s, steps, m).apply.state != Failed
    ensures steps[m].Expire? || steps[m].SwapParent?
  {
    AtNext(s, steps, m);
    ParentChangeAuthorized(At(s, steps, m), steps[m]);
  }

  lemma FailedMember(rows: seq<OpRow>) returns (i: nat)
    requires Projected(rows) == Failed
    ensures i < |rows| && rows[i].state == Failed
  {
    ProjectedIff(rows);
    i :| 0 <= i < |rows| && rows[i].state == Failed;
  }

  /** A parent fails by expiry, or because a listing held a failed row. */
  lemma ParentFailure(s: System, steps: seq<Step>, n: nat) returns (k: nat, i: nat)
    requires Initial(s) && ValidRun(s, steps) && |s.ops| > 1 && NoApplyLease(steps) && n <= |steps|
    requires At(s, steps, n).apply.state == Failed
    ensures k < n && (steps[k].Expire? || (i < |s.ops| && At(s, steps, k).ops[i].state == Failed))
  {
    i := 0;
    k := LastChange(ParentStates(s, steps), n);
    assert !TakesApplyLease(steps[k]);
    ParentFails(s, steps, k);
    if steps[k].SwapParent? {
      var _, l := SwapsGoBack(s, steps, k);
      i := FailedMember(At(s, steps, l).ops);
      k := l;
    }
  }

  /**
   An apply that reports failure failed for a reason: a driver read a failed task, a finalizer's drive failed, a row had
   no tasks, or a retry expired. No interleaving and no chain of mirrored parents makes a failure up.
   */
  lemma {:induction false} FailedApplyHasReason(s: System, steps: seq<Step>, n: nat) returns (k: nat)
    requires Initial(s) && ValidRun(s, steps) && |s.ops| > 1 && NoApplyLease(steps) && n <= |steps|
    requires At(s, steps, n).apply.state == Failed
    ensures k < n && FailsAt(s, steps, k)
    decreases n
  {
    var i;
    k, i := ParentFailure(s, steps, n);
    if !steps[k].Expire? {
      k := RowFailure(s, steps, k, i);
      if !FailsAt(s, steps, k) {
        k := FailedApplyHasReason(s, steps, k);
      }
    }
  }
}
