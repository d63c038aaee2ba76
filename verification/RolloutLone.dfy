/**
 Applies with a single operation: the driver of the row also takes the apply lease,
 and the two leases together bring a fresh, resumed or retried apply to completion.
 */
module RolloutLone {
  import opened ApplyStates
  import opened ApplyRows
  import opened RolloutProtocol
  import RolloutParent
  import RolloutRows
  import RolloutProgress
  import opened RolloutSteps

  /** A single work row with tasks; driver 0 is in the given drive. */
  ghost predicate Lone(s: System, v: Drive) {
    && |s.ops| == 1 && s.ops[0].kind == Work && |s.tasks| == 1 && s.tasks[0] != []
    && |s.drivers| > 0 && s.drivers[0] == Driver(v, Resting, None)
  }

  /** The apply is fresh, stopped with a start requested, or failed with retries left. */
  ghost predicate Waiting(s: System) {
    && Lone(s, Free) && s.nextToken > 0 && s.ops[0].state == s.apply.state
    && (|| (s.apply.state == Pending && !s.stop)
        || (s.apply.state == Stopped && s.start)
        || (s.apply.state == FailedRetryable && s.apply.attempt < 10))
  }

  /** Driver 0 holds the row's lease n and the apply's lease m, and the apply is live. */
  ghost predicate Held(s: System, n: nat, m: nat) {
    && |s.ops| == 1 && s.ops[0].token == n > 0 && s.apply.token == m > 0 && !Terminal(s.apply.state)
  }

  lemma ClaimRow(s: System) returns (t: System)
    requires Waiting(s)
    ensures Goes(s, ClaimOperation(0, 0), t) && Lone(t, Claimed(0, s.nextToken))
    ensures t.apply == s.apply && t.start == s.start && t.ops[0].token == s.nextToken == t.nextToken - 1
  {
    t := Perform(s, ClaimOperation(0, 0));
  }

  lemma ClaimApply(s: System, n: nat) returns (t: System)
    requires Lone(s, Claimed(0, n)) && s.ops[0].token == n > 0 && ParentClaimable(s)
    ensures Goes(s, ClaimParent(0), t) && Lone(t, Driving(0, n, Some(s.nextToken)))
    ensures s.nextToken > 0 ==> Held(t, n, s.nextToken)
  {
    t := Perform(s, ClaimParent(0));
    RolloutParent.ApplyClaimWrites(s, ClaimParent(0));
  }

  lemma Engage(s: System) returns (steps: seq<Step>, t: System, n: nat, m: nat)
    requires Waiting(s)
    ensures Leads(s, steps, t) && Lone(t, Driving(0, n, Some(m))) && Held(t, n, m)
  {
    var u := ClaimRow(s);
    n, m := s.nextToken, u.nextToken;
    t := ClaimApply(u, n);
    RolloutRows.One(s, ClaimOperation(0, 0));
    Extend(s, [ClaimOperation(0, 0)], u, ClaimParent(0), t);
    steps := [ClaimOperation(0, 0)] + [ClaimParent(0)];
  }

  lemma {:induction false} DriveAll(s: System, n: nat, m: nat, k: nat) returns (steps: seq<Step>, t: System)
    requires Lone(s, Driving(0, n, Some(m))) && Held(s, n, m) && k <= |s.tasks[0]|
    requires forall j | 0 <= j < k :: s.tasks[0][j].state == Completed
    ensures Leads(s, steps, t) && Lone(t, Driving(0, n, Some(m))) && Held(t, n, m)
    ensures forall j | 0 <= j < |t.tasks[0]| :: t.tasks[0][j].state == Completed
    decreases |s.tasks[0]| - k
  {
    if k == |s.tasks[0]| {
      steps, t := [], s;
    } else {
      var drive := DriveTask(0, 0, k, Task(Completed, ""));
      DriveTaskGoes(s, 0, k, Task(Completed, ""));
      var rest;
      rest, t := DriveAll(Perform(s, drive), n, m, k + 1);
      Prepend(s, drive, rest, [drive] + rest, t);
      steps := [drive] + rest;
    }
  }

  lemma SettleAll(s: System, n: nat, m: nat) returns (steps: seq<Step>, t: System)
    requires Lone(s, Driving(0, n, Some(m))) && Held(s, n, m)
    requires forall j | 0 <= j < |s.tasks[0]| :: s.tasks[0][j].state == Completed
    ensures Leads(s, steps, t) && Lone(t, Finished(0, n, Some(m), false)) && Held(t, n, m)
    ensures t.ops[0].state == Completed
  {
    RolloutProgress.AllAlike(s.tasks[0], Completed);
    ReadGoes(s, 0, Completed, FirstFailedTaskError(s.tasks[0]));
    var u := Perform(s, ReadTasks(0));
    SettleGoes(u, 0);
    t := Perform(u, SettleFromTasks(0));
    RolloutRows.One(s, ReadTasks(0));
    Extend(s, [ReadTasks(0)], u, SettleFromTasks(0), t);
    steps := [ReadTasks(0)] + [SettleFromTasks(0)];
  }

  lemma ReportAll(s: System, n: nat, m: nat) returns (steps: seq<Step>, t: System)
    requires Lone(s, Finished(0, n, Some(m), false)) && Held(s, n, m) && s.ops[0].state == Completed
    ensures Leads(s, steps, t) && t.apply.state == Completed && t.ops == s.ops
  {
    RolloutProgress.CompletedVerdict(s.ops);
    var u;
    steps, u := ListedSystem(s, 0);
    RolloutParent.SwapStep(u, 0, 0);
    t := Perform(u, SwapParent(0, 0));
    Extend(s, steps, u, SwapParent(0, 0), t);
    steps := steps + [SwapParent(0, 0)];
  }

  /** Every single-operation apply that is fresh, started again or retried has a run that completes its row and it. */
  lemma LoneCompletionIsReachable(s: System) returns (steps: seq<Step>)
    requires Waiting(s)
    ensures ValidRun(s, steps)
    ensures Execute(s, steps).apply.state == Completed && Execute(s, steps).ops[0].state == Completed
  {
    var t, u, n, m, more;
    steps, t, n, m := Engage(s);
    more, u := DriveAll(t, n, m, 0);
    AppendTo(s, steps, t, more, u);
    steps := steps + more;
    more, t := SettleAll(u, n, m);
    AppendTo(s, steps, u, more, t);
    steps := steps + more;
    more, u := ReportAll(t, n, m);
    AppendTo(s, steps, t, more, u);
    steps := steps + more;
  }
}
