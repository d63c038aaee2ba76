/**
 What the parent's verdict says about the rows behind it, over every run: a parent that
 reports completion has only completed rows, and a failure is never lost.
 */
module RolloutVerdict {
  import opened ApplyStates
  import opened ApplyRows
  import opened RolloutProtocol
  import opened RolloutParent
  import opened RolloutRows

  ghost predicate AllCompleted(rows: seq<OpRow>) {
    forall i | 0 <= i < |rows| :: rows[i].state == Completed
  }

  lemma ProjectedCompleted(rows: seq<OpRow>)
    requires Projected(rows) == Completed
    ensures AllCompleted(rows)
  {
    var ss := States(Children(rows));
    forall i | 0 <= i < |rows| ensures rows[i].state == Completed {
      assert ss[i] == rows[i].state && ss[i] in ss;
    }
  }

  // ---------------------------------------------------------------- completion is earned

  /** What a listing saw completed is completed still. */
  ghost predicate Current(rows: seq<OpRow>, ops: seq<OpRow>) {
    |rows| == |ops| && forall i | 0 <= i < |ops| && rows[i].state == Completed :: ops[i].state == Completed
  }

  ghost predicate CurrentListings(s: System) {
    forall d | 0 <= d < |s.drivers| && s.drivers[d].projection.Listed? :: Current(s.drivers[d].projection.rows, s.ops)
  }

  ghost predicate Earned(s: System) {
    CurrentListings(s) && (s.apply.state == Completed ==> AllCompleted(s.ops))
  }

  /** A parent becomes completed only through a projection of a completed listing. */
  lemma CompletedParent(s: System, step: Step)
    requires Enabled(s, step) && !TakesApplyLease(step) && ParentAfter(s, step).state == Completed
    ensures s.apply.state == Completed
            || (step.SwapParent? && Projected(s.drivers[step.d].projection.rows) == Completed)
  {
  }

  lemma ListingAfter(s: System, step: Step, d: nat)
    requires Enabled(s, step) && d < |s.drivers| && Perform(s, step).drivers[d].projection.Listed?
    ensures var p, q := s.drivers[d].projection, Perform(s, step).drivers[d].projection;
            q.rows == s.ops || (p.Listed? && q.rows == p.rows)
  {
  }

  lemma CompletedRowsStay(s: System, step: Step)
    requires Enabled(s, step) && Leases(s) && Settled(s, Completed) && |s.ops| > 1
    ensures Current(s.ops, Perform(s, step).ops)
  {
    forall i | 0 <= i < |s.ops| && s.ops[i].state == Completed ensures Perform(s, step).ops[i].state == Completed {
      SettledRowStep(s, step, i);
    }
  }

  lemma EarnedFrame(s: System, t: System, step: Step)
    requires Enabled(s, step) && t == Perform(s, step) && CurrentListings(s) && Current(s.ops, t.ops)
    ensures CurrentListings(t)
  {
    forall d | 0 <= d < |t.drivers| && t.drivers[d].projection.Listed?
      ensures Current(t.drivers[d].projection.rows, t.ops)
    {
      ListingAfter(s, step, d);
    }
  }

  lemma EarnedStep(s: System, step: Step)
    requires Enabled(s, step) && Leases(s) && Settled(s, Completed) && |s.ops| > 1
    requires Earned(s) && !TakesApplyLease(step)
    ensures Earned(Perform(s, step))
  {
    var t := Perform(s, step);
    CompletedRowsStay(s, step);
    EarnedFrame(s, t, step);
    if t.apply.state == Completed {
      CompletedParent(s, step);
      if s.apply.state != Completed {
        ProjectedCompleted(s.drivers[step.d].projection.rows);
        assert Current(s.drivers[step.d].projection.rows, s.ops);
      }
    }
  }

  lemma {:induction false} EarnedInv(s: System, steps: seq<Step>)
    requires ValidRun(s, steps) && NoApplyLease(steps) && Leases(s) && Settled(s, Completed) && |s.ops| > 1 && Earned(s)
    ensures Earned(Execute(s, steps))
    decreases |steps|
  {
    if steps != [] {
      assert !TakesApplyLease(steps[0]);
      LeasesStep(s, steps[0]);
      SettledStep(s, steps[0], Completed);
      EarnedStep(s, steps[0]);
      EarnedInv(Perform(s, steps[0]), steps[1..]);
    }
  }

  /** However stale the listings, a multi-operation apply that reports completion has only completed rows. */
  lemma CompletionIsEarned(s: System, steps: seq<Step>)
    requires Initial(s) && |s.ops| > 1 && ValidRun(s, steps) && NoApplyLease(steps)
    ensures Execute(s, steps).apply.state == Completed ==> AllCompleted(Execute(s, steps).ops)
  {
    InitialLeases(s);
    EarnedInv(s, steps);
  }

  // ---------------------------------------------------------------- failure is never lost

  lemma FailedMember(rows: seq<OpRow>) returns (i: nat)
    requires BaseState(rows) == Failed
    ensures i < |rows| && rows[i].state == Failed
  {
    var ss := States(Children(rows));
    i :| 0 <= i < |ss| && ss[i] == Failed;
  }

  lemma FailedVerdict(rows: seq<OpRow>, i: nat)
    requires i < |rows| && rows[i].state == Failed
    ensures Projected(rows) == Failed || Projected(rows) == RunningDegraded
    ensures (forall j | 0 <= j < |rows| :: Terminal(rows[j].state)) ==> Projected(rows) == Failed
  {
    var cs := Children(rows);
    assert States(cs)[i] == Failed;
    if forall j | 0 <= j < |rows| :: Terminal(rows[j].state) {
      SettledRolloutIsVerdict(cs);
    }
  }

  /**
   Once the rows of a multi-operation apply aggregate to failed in a run whose expiries are quiet, every
   continuation keeps the verdict: the projection is failed or still held degraded, and failed in the end.
   */
  lemma FailureIsNeverLost(s: System, before: seq<Step>, rest: seq<Step>)
    requires Initial(s) && |s.ops| > 1 && ValidRun(s, before) && QuietRun(s, before)
    requires BaseState(Execute(s, before).ops) == Failed && ValidRun(Execute(s, before), rest)
    ensures var rows := Execute(Execute(s, before), rest).ops;
            && (Projected(rows) == Failed || Projected(rows) == RunningDegraded)
            && ((forall j | 0 <= j < |rows| :: Terminal(rows[j].state)) ==> Projected(rows) == Failed)
  {
    var i := FailedMember(Execute(s, before).ops);
    FinishedRowsAreFinal(s, before, rest, i);
    FailedVerdict(Execute(Execute(s, before), rest).ops, i);
  }
}
