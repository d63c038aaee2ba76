/** Single steps of the protocol as whole-system updates, and runs put together from them. */
module RolloutSteps {
  import opened ApplyStates
  import opened ApplyRows
  import opened RolloutProtocol
  import RolloutRows

  /** The step takes s to t. */
  ghost predicate Goes(s: System, step: Step, t: System) {
    Enabled(s, step) && Perform(s, step) == t
  }

  lemma Onwards(s: System, step: Step, t: System, rest: seq<Step>)
    requires Goes(s, step, t) && ValidRun(t, rest)
    ensures ValidRun(s, [step] + rest) && Execute(s, [step] + rest) == Execute(t, rest)
  {
    RolloutRows.Then(s, step, rest);
  }

  /** The steps form a run from s to u. */
  ghost predicate Leads(s: System, steps: seq<Step>, u: System) {
    ValidRun(s, steps) && Execute(s, steps) == u
  }

  lemma FirstStep(s: System, steps: seq<Step>, u: System)
    requires Leads(s, steps, u) && steps != []
    ensures Enabled(s, steps[0]) && Leads(Perform(s, steps[0]), steps[1..], u)
  {
  }

  lemma Prepend(s: System, step: Step, rest: seq<Step>, steps: seq<Step>, v: System)
    requires Enabled(s, step) && Leads(Perform(s, step), rest, v)
    requires steps != [] && steps[0] == step && steps[1..] == rest
    ensures Leads(s, steps, v)
  {
  }

  lemma Cut<T>(a: seq<T>, b: seq<T>)
    ensures if a == [] then a + b == b else a + b != [] && (a + b)[0] == a[0] && (a + b)[1..] == a[1..] + b
  {
  }

  lemma {:induction false} AppendTo(s: System, a: seq<Step>, u: System, b: seq<Step>, v: System)
    requires Leads(s, a, u) && Leads(u, b, v)
    ensures Leads(s, a + b, v)
    decreases |a|
  {
    Cut(a, b);
    if a != [] {
      FirstStep(s, a, u);
      AppendTo(Perform(s, a[0]), a[1..], u, b, v);
      Prepend(s, a[0], a[1..] + b, a + b, v);
    }
  }

  lemma Extend(s: System, steps: seq<Step>, u: System, step: Step, v: System)
    requires Leads(s, steps, u) && Goes(u, step, v)
    ensures Leads(s, steps + [step], v)
  {
    RolloutRows.One(u, step);
    AppendTo(s, steps, u, [step], v);
  }

  // What single steps do to a whole system.

  function WithDrive(s: System, d: nat, v: Drive): seq<Driver>
    requires d < |s.drivers|
  {
    s.drivers[d := s.drivers[d].(drive := v)]
  }

  lemma SweepGoes(s: System, d: nat)
    requires d < |s.drivers| && s.drivers[d].drive.Stopping?
    requires LeaseHolds(s.apply, s.ops, DriveLease(s.drivers[d].drive))
    ensures Goes(s, StopPendingRows(d), s.(ops := StopPending(s.ops), nextToken := s.nextToken + 1))
  {
    assert DriversAfter(s, StopPendingRows(d)) == s.drivers;
  }

  lemma ReadGoes(s: System, d: nat, st: State, message: string)
    requires d < |s.drivers| && s.drivers[d].drive.Driving? && s.drivers[d].drive.op < |s.tasks|
    requires Derive(TaskStates(s.tasks[s.drivers[d].drive.op])) == st
    requires FirstFailedTaskError(s.tasks[s.drivers[d].drive.op]) == message
    ensures var v := s.drivers[d].drive;
            Goes(s, ReadTasks(d), s.(nextToken := s.nextToken + 1,
                                     drivers := WithDrive(s, d, Deriving(v.op, v.token, v.parentToken, st, message))))
  {
  }

  lemma SettleGoes(s: System, d: nat)
    requires d < |s.drivers| && s.drivers[d].drive.Deriving? && Persistable(s.drivers[d].drive.derived)
    requires var v := s.drivers[d].drive; v.op < |s.ops| && LeaseHolds(s.apply, s.ops, ByOp(v.op, v.token))
    ensures var v := s.drivers[d].drive;
            Goes(s, SettleFromTasks(d),
                 s.(nextToken := s.nextToken + 1, ops := s.ops[v.op := WithState(s.ops[v.op], v.derived, v.message)],
                    drivers := WithDrive(s, d, Finished(v.op, v.token, v.parentToken, false))))
  {
  }

  lemma ExpireGoes(s: System, now: nat)
    requires s.apply.state == FailedRetryable && s.apply.completedAt.None?
    ensures Goes(s, Expire(now, true),
                 s.(nextToken := s.nextToken + 1, apply := s.apply.(state := Failed, completedAt := Some(now)),
                    ops := ExpireRetryable(s.ops), tasks := ExpiredTasks(s.tasks), direct := s.direct - 1))
  {
  }

  /** A fresh row is started. */
  lemma ClaimGoes(s: System, d: nat, i: nat)
    requires d < |s.drivers| && s.drivers[d].drive.Free? && i < |s.ops|
    requires s.ops[i].state == Pending && !s.stop && StartGate(s.ops, i)
    ensures Goes(s, ClaimOperation(d, i),
                 s.(nextToken := s.nextToken + 1,
                    ops := s.ops[i := s.ops[i].(state := Running, token := s.nextToken)],
                    drivers := WithDrive(s, d, Claimed(i, s.nextToken))))
  {
  }

  /** A parked barrier row starts to cut over. */
  lemma ClaimCutoverGoes(s: System, d: nat, i: nat)
    requires d < |s.drivers| && s.drivers[d].drive.Free? && i < |s.ops| && |s.ops| > 1
    requires s.ops[i].state == WaitingForCutover && s.ops[i].cutover == Barrier && CutoverGate(s.ops, i)
    requires !s.stop && !s.deferCutover
    ensures Goes(s, ClaimCutover(d, i),
                 s.(nextToken := s.nextToken + 1,
                    ops := s.ops[i := s.ops[i].(state := CuttingOver, token := s.nextToken)],
                    drivers := WithDrive(s, d, Claimed(i, s.nextToken))))
  {
  }

  lemma LoadGoes(s: System, d: nat)
    requires d < |s.drivers| && s.drivers[d].drive.Claimed? && !Terminal(s.apply.state)
    ensures var v := s.drivers[d].drive;
            Goes(s, LoadParent(d),
                 s.(nextToken := s.nextToken + 1, drivers := WithDrive(s, d, Driving(v.op, v.token, None))))
  {
  }

  lemma DriveTaskGoes(s: System, d: nat, k: nat, value: Task)
    requires d < |s.drivers| && s.drivers[d].drive.Driving?
    requires var v := s.drivers[d].drive;
             v.op < |s.tasks| && k < |s.tasks[v.op]| && LeaseHolds(s.apply, s.ops, ByOp(v.op, v.token))
    ensures var i := s.drivers[d].drive.op;
            Goes(s, DriveTask(d, i, k, value),
                 s.(nextToken := s.nextToken + 1, tasks := s.tasks[i := s.tasks[i][k := value]]))
  {
    assert DriversAfter(s, DriveTask(d, s.drivers[d].drive.op, k, value)) == s.drivers;
  }

  lemma ReportGoes(s: System, d: nat, st: State)
    requires d < |s.drivers| && s.drivers[d].drive.Driving? && (st == Completed || st == Failed)
    requires var v := s.drivers[d].drive;
             && v.op < |s.ops| && s.ops[v.op].kind == Finalizer && LeaseHolds(s.apply, s.ops, ByOp(v.op, v.token))
    ensures var v := s.drivers[d].drive;
            Goes(s, SettleReported(d, st, ""),
                 s.(nextToken := s.nextToken + 1, ops := s.ops[v.op := WithState(s.ops[v.op], st, "")],
                    drivers := WithDrive(s, d, Finished(v.op, v.token, v.parentToken, false))))
  {
  }

  lemma SeeStopGoes(s: System, d: nat)
    requires d < |s.drivers| && s.drivers[d].drive.Finished? && s.stop
    ensures Goes(s, SeeStop(d),
                 s.(nextToken := s.nextToken + 1,
                    drivers := WithDrive(s, d, s.drivers[d].drive.(stopSeen := true))))
  {
  }

  lemma SweepSeenGoes(s: System, d: nat)
    requires d < |s.drivers| && s.drivers[d].drive.Finished? && s.drivers[d].drive.stopSeen
    requires LeaseHolds(s.apply, s.ops, DriveLease(s.drivers[d].drive))
    ensures Goes(s, StopPendingRows(d), s.(ops := StopPending(s.ops), nextToken := s.nextToken + 1))
  {
    assert DriversAfter(s, StopPendingRows(d)) == s.drivers;
  }

  lemma ListGoes(s: System, d: nat)
    requires d < |s.drivers| && s.drivers[d].projection.Loaded?
    ensures var p := s.drivers[d].projection;
            Goes(s, ListRows(d),
                 s.(nextToken := s.nextToken + 1,
                    drivers := s.drivers[d := s.drivers[d].(projection := Listed(p.parent, p.lease, p.reopen, s.ops))]))
  {
  }

  lemma LoadForProjectionGoes(s: System, d: nat)
    requires d < |s.drivers| && Leased(s.drivers[d].drive)
    ensures Goes(s, LoadForProjection(d),
                 s.(nextToken := s.nextToken + 1,
                    drivers := s.drivers[d := s.drivers[d].(
                      projection := Loaded(s.apply, DriveLease(s.drivers[d].drive), true))]))
  {
  }

  lemma AbandonGoes(s: System, d: nat)
    requires d < |s.drivers|
    ensures Goes(s, Abandon(d),
                 s.(nextToken := s.nextToken + 1, drivers := s.drivers[d := Driver(Free, Resting, None)]))
  {
  }

  /** A projection that moves nothing. */
  lemma KeepGoes(s: System, d: nat, now: nat)
    requires d < |s.drivers| && s.drivers[d].projection.Listed? && SwapOf(s, d, now).None?
    ensures Goes(s, SwapParent(d, now),
                 s.(nextToken := s.nextToken + 1,
                    drivers := s.drivers[d := Driver(s.drivers[d].drive, Resting, None)]))
  {
  }

  /**
   A projection that moves the parent: one event, one gauge adjustment, and a claim on the summary if it finished it.
   */
  lemma MoveGoes(s: System, d: nat, now: nat)
    requires d < |s.drivers| && s.drivers[d].projection.Listed? && SwapOf(s, d, now).Some?
    requires |s.drivers[d].projection.rows| > 1
    ensures var swap := SwapOf(s, d, now).value;
            var before, after := Terminal(s.apply.state), Terminal(swap.state);
            Goes(s, SwapParent(d, now),
                 s.(nextToken := s.nextToken + 1, apply := Swapped(s.apply, swap),
                    gauge := s.gauge + (if before == after then 0 else if after then -1 else 1),
                    swaps := s.swaps + [SwapEvent(s.apply.state, swap.state)],
                    drivers := s.drivers[d := Driver(s.drivers[d].drive, Resting,
                                                     if !before && after then Some(|s.swaps|) else None)]))
  {
  }

  lemma PublishGoes(s: System, d: nat)
    requires d < |s.drivers| && s.drivers[d].won.Some? && Terminal(s.apply.state)
    ensures Goes(s, Publish(d),
                 s.(nextToken := s.nextToken + 1, published := s.published + [s.drivers[d].won.value],
                    drivers := s.drivers[d := s.drivers[d].(won := None)]))
  {
  }

  lemma CompleteStopGoes(s: System, d: nat)
    requires d < |s.drivers| && s.drivers[d].drive.Finished? && s.drivers[d].drive.parentToken.None?
    requires Terminal(s.apply.state)
    ensures Goes(s, CompleteStop(d), s.(nextToken := s.nextToken + 1, stop := false))
  {
    assert DriversAfter(s, CompleteStop(d)) == s.drivers;
  }

  /** What an unraced projection leaves. */
  ghost predicate ProjectedTo(s: System, d: nat, now: nat, t: System)
    requires d < |s.drivers|
  {
    var decision := Decide(s.apply, s.ops, true, now);
    && t.ops == s.ops && t.tasks == s.tasks && t.stop == s.stop && t.published == s.published
    && |t.drivers| == |s.drivers| && t.drivers[d].drive == s.drivers[d].drive && t.drivers[d].projection == Resting
    && t.apply == (if decision.Swap? then Swapped(s.apply, decision) else s.apply)
    && t.gauge - s.gauge == Live(t.apply) - Live(s.apply)
    && t.drivers[d].won == (if Live(t.apply) < Live(s.apply) then Some(|s.swaps|) else None)
  }

  lemma ListedSystem(s: System, d: nat) returns (steps: seq<Step>, u: System)
    requires d < |s.drivers| && Leased(s.drivers[d].drive)
    ensures Leads(s, steps, u)
    ensures && u.apply == s.apply && u.ops == s.ops && u.tasks == s.tasks && u.stop == s.stop && u.gauge == s.gauge
            && u.swaps == s.swaps && u.published == s.published && |u.drivers| == |s.drivers|
            && u.drivers[d].drive == s.drivers[d].drive
            && u.drivers[d].projection == Listed(s.apply, DriveLease(s.drivers[d].drive), true, s.ops)
  {
    LoadForProjectionGoes(s, d);
    var s1 := Perform(s, LoadForProjection(d));
    ListGoes(s1, d);
    u := Perform(s1, ListRows(d));
    RolloutRows.One(s, LoadForProjection(d));
    Extend(s, [LoadForProjection(d)], s1, ListRows(d), u);
    steps := [LoadForProjection(d)] + [ListRows(d)];
  }

  lemma SwappedSystem(s: System, u: System, d: nat, now: nat) returns (t: System)
    requires d < |u.drivers| && |s.drivers| == |u.drivers| && |s.ops| > 1
    requires && u.apply == s.apply && u.ops == s.ops && u.tasks == s.tasks && u.stop == s.stop && u.gauge == s.gauge
             && u.swaps == s.swaps && u.published == s.published && u.drivers[d].drive == s.drivers[d].drive
             && u.drivers[d].projection == Listed(s.apply, DriveLease(s.drivers[d].drive), true, s.ops)
    requires LeaseHolds(s.apply, s.ops, DriveLease(s.drivers[d].drive))
    ensures Goes(u, SwapParent(d, now), t) && ProjectedTo(s, d, now, t)
  {
    if SwapOf(u, d, now).Some? {
      MoveGoes(u, d, now);
    } else {
      KeepGoes(u, d, now);
    }
    t := Perform(u, SwapParent(d, now));
  }

  /** Load, list and swap with nothing in between, as a run. */
  lemma ProjectionRun(s: System, d: nat, now: nat) returns (steps: seq<Step>, t: System)
    requires d < |s.drivers| && Leased(s.drivers[d].drive) && |s.ops| > 1
    requires LeaseHolds(s.apply, s.ops, DriveLease(s.drivers[d].drive))
    ensures Leads(s, steps, t) && ProjectedTo(s, d, now, t)
  {
    var u;
    steps, u := ListedSystem(s, d);
    t := SwappedSystem(s, u, d, now);
    Extend(s, steps, u, SwapParent(d, now), t);
    steps := steps + [SwapParent(d, now)];
  }
}
