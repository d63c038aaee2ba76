/**
 The operator's settle procedure and the rollout protocol describe one thing: what the procedure leaves when nobody
 races it is what the protocol's steps leave when they run one after the other.
 */
module OperatorProtocol {
  import opened ApplyStates
  import opened ApplyRows
  import opened RolloutProtocol
  import opened RolloutSteps
  import O = Operator
  import RolloutRows

  /** The driver has returned from driving row i's tasks, and they have an outcome to persist. */
  ghost predicate Returned(s: System, d: nat, i: nat, token: nat) {
    && d < |s.drivers| && s.drivers[d] == Driver(Driving(i, token, None), Resting, None)
    && |s.ops| > 1 && |s.tasks| == |s.ops| && O.Unraced(s.ops, i, token)
    && s.ops[i].kind == Work && s.tasks[i] != [] && Persistable(Derive(TaskStates(s.tasks[i])))
  }

  /** The row marked and, for a pending stop, its pending siblings swept; nothing else has changed. */
  ghost predicate MarkedTo(s: System, d: nat, i: nat, token: nat, u: System) {
    && d < |u.drivers| == |s.drivers| && i < |s.ops| == |s.tasks|
    && u.drivers[d].drive == Finished(i, token, None, s.stop)
    && u.ops == O.SettledRows(s.ops, i, O.As(Derive(TaskStates(s.tasks[i])), FirstFailedTaskError(s.tasks[i])), s.stop)
    && u.apply == s.apply && u.stop == s.stop && u.gauge == s.gauge && u.published == s.published
  }

  lemma MarkRun(s: System, d: nat, i: nat, token: nat) returns (steps: seq<Step>, u: System)
    requires Returned(s, d, i, token)
    ensures Leads(s, steps, u) && |u.drivers| == |s.drivers| && u.drivers[d].drive == Finished(i, token, None, false)
    ensures u.ops == s.ops[i := WithState(s.ops[i], Derive(TaskStates(s.tasks[i])), FirstFailedTaskError(s.tasks[i]))]
    ensures u.apply == s.apply && u.stop == s.stop && u.gauge == s.gauge && u.published == s.published
  {
    ReadGoes(s, d, Derive(TaskStates(s.tasks[i])), FirstFailedTaskError(s.tasks[i]));
    var v := Perform(s, ReadTasks(d));
    SettleGoes(v, d);
    u := Perform(v, SettleFromTasks(d));
    RolloutRows.One(s, ReadTasks(d));
    Extend(s, [ReadTasks(d)], v, SettleFromTasks(d), u);
    steps := [ReadTasks(d)] + [SettleFromTasks(d)];
  }

  lemma SweepRun(s: System, d: nat, i: nat, token: nat) returns (steps: seq<Step>, u: System)
    requires d < |s.drivers| && s.drivers[d].drive == Finished(i, token, None, false) && s.stop
    requires O.Unraced(s.ops, i, token)
    ensures Leads(s, steps, u) && |u.drivers| == |s.drivers| && u.drivers[d].drive == Finished(i, token, None, true)
    ensures u.ops == StopPending(s.ops)
    ensures u.apply == s.apply && u.stop == s.stop && u.gauge == s.gauge && u.published == s.published
  {
    SeeStopGoes(s, d);
    var v := Perform(s, SeeStop(d));
    SweepSeenGoes(v, d);
    u := Perform(v, StopPendingRows(d));
    RolloutRows.One(s, SeeStop(d));
    Extend(s, [SeeStop(d)], v, StopPendingRows(d), u);
    steps := [SeeStop(d)] + [StopPendingRows(d)];
  }

  lemma MarkAndSweepRun(s: System, d: nat, i: nat, token: nat) returns (steps: seq<Step>, u: System)
    requires Returned(s, d, i, token)
    ensures Leads(s, steps, u) && MarkedTo(s, d, i, token, u)
  {
    steps, u := MarkRun(s, d, i, token);
    if s.stop {
      var more, v := SweepRun(u, d, i, token);
      AppendTo(s, steps, u, more, v);
      steps, u := steps + more, v;
    }
  }

  /** What the procedure's contract says of the parent, the request, the gauge and the summaries. */
  ghost predicate ClosedTo(s: System, t: System) {
    && (O.Refuses(s.apply, t.ops) ==> t.apply == s.apply && t.stop == s.stop && t.published == s.published)
    && (!O.Refuses(s.apply, t.ops) ==>
          && t.apply.state == Projected(t.ops)
          && t.stop == (s.stop && !Terminal(t.apply.state))
          && |t.published| - |s.published| == if !Terminal(s.apply.state) && Terminal(t.apply.state) then 1 else 0)
    && t.gauge - s.gauge == Live(t.apply) - Live(s.apply)
  }

  /** A finished projection published and its resolved stop closed. */
  lemma CloseRun(s: System, d: nat) returns (steps: seq<Step>, t: System)
    requires d < |s.drivers| && s.drivers[d].drive.Finished? && s.drivers[d].drive.parentToken.None?
    requires s.drivers[d].won.Some? ==> Terminal(s.apply.state)
    ensures Leads(s, steps, t) && t.apply == s.apply && t.ops == s.ops && t.gauge == s.gauge
    ensures t.stop == (s.stop && !Terminal(s.apply.state))
    ensures |t.published| == |s.published| + if s.drivers[d].won.Some? then 1 else 0
  {
    steps, t := [], s;
    if s.drivers[d].won.Some? {
      PublishGoes(s, d);
      t := Perform(s, Publish(d));
      RolloutRows.One(s, Publish(d));
      steps := [Publish(d)];
    }
    if s.stop && Terminal(s.apply.state) {
      CompleteStopGoes(t, d);
      var u := Perform(t, CompleteStop(d));
      Extend(s, steps, t, CompleteStop(d), u);
      steps, t := steps + [CompleteStop(d)], u;
    }
  }

  lemma ProjectAndCloseRun(s: System, d: nat, i: nat, token: nat, now: nat) returns (steps: seq<Step>, t: System)
    requires d < |s.drivers| && s.drivers[d].drive.Finished? && s.drivers[d].drive.op == i
    requires s.drivers[d].drive.token == token && s.drivers[d].drive.parentToken.None?
    requires |s.ops| > 1 && O.Unraced(s.ops, i, token)
    ensures Leads(s, steps, t) && t.ops == s.ops && ClosedTo(s, t)
  {
    var u, more;
    steps, u := ProjectionRun(s, d, now);
    t := u;
    if !O.Refuses(s.apply, s.ops) {
      more, t := CloseRun(u, d);
      AppendTo(s, steps, u, more, t);
      steps := steps + more;
    }
  }

  /**
   Settling as a run of the protocol: read the tasks, mark the row, sweep for a stop, project, publish, close. It ends
   with the rows, parent, request, gauge and summaries that the procedure's contract promises, and the row follows its
   tasks.
   */
  lemma SettleIsRun(s: System, d: nat, i: nat, token: nat, now: nat) returns (steps: seq<Step>, t: System)
    requires Returned(s, d, i, token)
    ensures Leads(s, steps, t) && ClosedTo(s, t)
    ensures t.ops == O.SettledRows(s.ops, i, O.OwnResult(s.apply, s.ops[i], s.tasks[i], false), s.stop)
    ensures O.FollowsTasks(t.ops[i], s.tasks[i])
  {
    var u, more;
    steps, u := MarkAndSweepRun(s, d, i, token);
    more, t := ProjectAndCloseRun(u, d, i, token, now);
    AppendTo(s, steps, u, more, t);
    steps := steps + more;
    O.SettledFollows(t.ops[i], s.tasks[i]);
  }
}
