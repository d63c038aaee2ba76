/**
 What every run of the rollout protocol guarantees about the parent apply row: when
 a finished apply can come back to life, that the active-apply gauge is conserved,
 that terminal summaries are never published twice, and what the time columns mean.
 */
module RolloutParent {
  import opened ApplyStates
  import opened ApplyRows
  import opened RolloutProtocol

  // ---------------------------------------------------------------- terminal parents

  /** A lease-scoped projection reopening a failed parent over children that are themselves still failed. */
  predicate Reopening(s: System, step: Step)
    requires Enabled(s, step)
  {
    && step.SwapParent?
    && var p := s.drivers[step.d].projection;
    && p.reopen && s.apply.state == Failed && BaseState(p.rows) == Failed
    && ParentAfter(s, step).state == RunningDegraded
  }

  /** A start request lets an apply-level claim resume a stopped single-operation apply. */
  predicate ResumingStopped(s: System, step: Step)
    requires Enabled(s, step)
  {
    step.ClaimParent? && |s.ops| == 1 && s.start && s.apply.state == Stopped && ParentAfter(s, step).state == Resuming
  }

  /** The drive itself writing the parent under a current apply lease. */
  predicate DirectWrite(s: System, step: Step)
    requires Enabled(s, step)
  {
    step.WriteParent? && LeaseHolds(s.apply, s.ops, ByApply(ParentLease(s.drivers[step.d].drive).value))
  }

  predicate Revives(s: System, step: Step)
    requires Enabled(s, step)
  {
    Reopening(s, step) || ResumingStopped(s, step) || DirectWrite(s, step)
  }

  lemma OnlyRevivalsLeaveTerminal(s: System, step: Step)
    requires Enabled(s, step)
    requires Terminal(s.apply.state) && !Terminal(Perform(s, step).apply.state)
    ensures Revives(s, step)
  {
  }

  ghost predicate SomeRevival(s: System, steps: seq<Step>)
    requires ValidRun(s, steps)
    decreases |steps|
  {
    steps != [] && (Revives(s, steps[0]) || SomeRevival(Perform(s, steps[0]), steps[1..]))
  }

  /**
   Over every interleaving with stale snapshots, a terminal parent stays terminal unless one of the three revivals
   happens.
   */
  lemma {:induction false} TerminalParentStays(s: System, steps: seq<Step>)
    requires ValidRun(s, steps) && !SomeRevival(s, steps)
    requires Terminal(s.apply.state)
    ensures Terminal(Execute(s, steps).apply.state)
    decreases |steps|
  {
    if steps != [] {
      if !Terminal(Perform(s, steps[0]).apply.state) {
        OnlyRevivalsLeaveTerminal(s, steps[0]);
      }
      TerminalParentStays(Perform(s, steps[0]), steps[1..]);
    }
  }

  /** No step of the run takes an apply lease or writes under one. */
  ghost predicate NoApplyLease(steps: seq<Step>) {
    forall k | 0 <= k < |steps| :: !TakesApplyLease(steps[k])
  }

  ghost predicate SomeReopening(s: System, steps: seq<Step>)
    requires ValidRun(s, steps)
    decreases |steps|
  {
    steps != [] && (Reopening(s, steps[0]) || SomeReopening(Perform(s, steps[0]), steps[1..]))
  }

  /** Without apply leases the reopening projection is the only way back, so any other terminal verdict is permanent. */
  lemma {:induction false} OnlyFailedReopens(s: System, steps: seq<Step>)
    requires ValidRun(s, steps) && NoApplyLease(steps)
    requires Terminal(s.apply.state) && !Terminal(Execute(s, steps).apply.state)
    ensures SomeReopening(s, steps)
    decreases |steps|
  {
    assert steps != [];
    var t := Perform(s, steps[0]);
    if !Terminal(t.apply.state) {
      OnlyRevivalsLeaveTerminal(s, steps[0]);
      assert !TakesApplyLease(steps[0]);
    } else {
      OnlyFailedReopens(t, steps[1..]);
    }
  }

  // ---------------------------------------------------------------- the gauge

  /** Every listing a driver carries covers all operation rows of the apply. */
  ghost predicate FullListings(s: System) {
    forall d | 0 <= d < |s.drivers| && s.drivers[d].projection.Listed? :: |s.drivers[d].projection.rows| == |s.ops|
  }

  lemma FullListingsStep(s: System, step: Step)
    requires Enabled(s, step) && FullListings(s)
    ensures FullListings(Perform(s, step))
  {
  }

  lemma GaugeStep(s: System, step: Step)
    requires Enabled(s, step) && FullListings(s) && |s.ops| > 1
    ensures var t := Perform(s, step);
            t.gauge + t.direct - Live(t.apply) == s.gauge + s.direct - Live(s.apply)
  {
  }

  /**
   Conservation: the projections' gauge adjustments, plus the liveness changes made by other
   parent writers, add up to the change in "the parent is live" over any run.
   */
  lemma {:induction false} GaugeIsConserved(s: System, steps: seq<Step>)
    requires ValidRun(s, steps) && FullListings(s) && |s.ops| > 1
    ensures var t := Execute(s, steps);
            (t.gauge - s.gauge) + (t.direct - s.direct) == Live(t.apply) - Live(s.apply)
    decreases |steps|
  {
    if steps != [] {
      FullListingsStep(s, steps[0]);
      GaugeStep(s, steps[0]);
      GaugeIsConserved(Perform(s, steps[0]), steps[1..]);
    }
  }

  /** A single-operation apply's gauge is never touched by projections. */
  lemma {:induction false} SingleGaugeUntouched(s: System, steps: seq<Step>)
    requires ValidRun(s, steps) && FullListings(s) && |s.ops| <= 1
    ensures Execute(s, steps).gauge == s.gauge
    decreases |steps|
  {
    if steps != [] {
      FullListingsStep(s, steps[0]);
      SingleGaugeUntouched(Perform(s, steps[0]), steps[1..]);
    }
  }

  // ---------------------------------------------------------------- terminal summaries

  /** Swap number k took a live parent to a terminal state. */
  ghost predicate Terminalizes(s: System, k: nat) {
    k < |s.swaps| && !Terminal(s.swaps[k].before) && Terminal(s.swaps[k].after)
  }

  ghost predicate Summaries(s: System) {
    && (forall i | 0 <= i < |s.published| :: Terminalizes(s, s.published[i]))
    && (forall i, j | 0 <= i < j < |s.published| :: s.published[i] != s.published[j])
    && (forall d | 0 <= d < |s.drivers| && s.drivers[d].won.Some? ::
          Terminalizes(s, s.drivers[d].won.value) && s.drivers[d].won.value !in s.published)
    && (forall d, e | 0 <= d < e < |s.drivers| && s.drivers[d].won.Some? && s.drivers[e].won.Some? ::
          s.drivers[d].won.value != s.drivers[e].won.value)
  }

  lemma SummariesAfterSwap(s: System, step: Step)
    requires Enabled(s, step) && Summaries(s) && step.SwapParent?
    ensures Summaries(Perform(s, step))
  {
    var t := Perform(s, step);
    assert s.swaps <= t.swaps;
    forall k: nat | Terminalizes(s, k) ensures Terminalizes(t, k) {}
    if BecameTerminal(s, step) {
      assert Terminalizes(t, |s.swaps|);
    }
  }

  /** The summary claims depend only on the swap log, the publications and what each driver has won. */
  lemma SummariesFrame(s: System, t: System)
    requires Summaries(s) && t.swaps == s.swaps && t.published == s.published && |t.drivers| == |s.drivers|
    requires forall d | 0 <= d < |s.drivers| :: t.drivers[d].won == s.drivers[d].won || t.drivers[d].won == None
    ensures Summaries(t)
  {
  }

  lemma SummariesAfterPublish(s: System, step: Step)
    requires Enabled(s, step) && Summaries(s) && step.Publish?
    ensures Summaries(Perform(s, step))
  {
    var t := Perform(s, step);
    assert t.swaps == s.swaps;
    forall k: nat ensures Terminalizes(s, k) <==> Terminalizes(t, k) {}
    assert t.drivers[step.d].won == None;
    assert forall e | 0 <= e < |s.drivers| && e != step.d :: t.drivers[e] == s.drivers[e];
  }

  lemma WonUnlessSwap(s: System, step: Step)
    requires Enabled(s, step) && !step.SwapParent? && !step.Publish?
    ensures var t := Perform(s, step);
            && t.swaps == s.swaps && t.published == s.published
            && forall d | 0 <= d < |s.drivers| :: t.drivers[d].won == s.drivers[d].won || t.drivers[d].won == None
  {
  }

  lemma SummariesStep(s: System, step: Step)
    requires Enabled(s, step) && Summaries(s)
    ensures Summaries(Perform(s, step))
  {
    if step.SwapParent? {
      SummariesAfterSwap(s, step);
    } else if step.Publish? {
      SummariesAfterPublish(s, step);
    } else {
      WonUnlessSwap(s, step);
      SummariesFrame(s, Perform(s, step));
    }
  }

  lemma {:induction false} SummariesInv(s: System, steps: seq<Step>)
    requires ValidRun(s, steps) && Summaries(s)
    ensures Summaries(Execute(s, steps))
    decreases |steps|
  {
    if steps != [] {
      SummariesStep(s, steps[0]);
      SummariesInv(Perform(s, steps[0]), steps[1..]);
    }
  }

  /** From a fresh apply, each published summary belongs to its own live-to-terminal swap. */
  lemma NoSwapIsPublishedTwice(s: System, steps: seq<Step>)
    requires Initial(s) && ValidRun(s, steps)
    ensures var t := Execute(s, steps);
            && (forall i | 0 <= i < |t.published| :: Terminalizes(t, t.published[i]))
            && (forall i, j | 0 <= i < j < |t.published| :: t.published[i] != t.published[j])
  {
    SummariesInv(s, steps);
  }

  // ---------------------------------------------------------------- time columns

  ghost predicate TimesOk(row: ApplyRow) {
    && (row.state != Pending ==> row.startedAt.Some?)
    && (row.completedAt.Some? <==> Terminal(row.state) && row.state != Stopped)
  }

  ghost predicate SnapshotOk(row: ApplyRow, snapshot: ApplyRow) {
    snapshot.startedAt.Some? ==> row.startedAt == snapshot.startedAt
  }

  /** A recorded start in any snapshot a driver carries is the row's recorded start. */
  ghost predicate SnapshotsOk(row: ApplyRow, d: Driver) {
    && (!d.projection.Resting? ==> SnapshotOk(row, d.projection.parent))
    && (d.drive.Mirroring? ==> SnapshotOk(row, d.drive.parent))
  }

  ghost predicate Times(s: System) {
    TimesOk(s.apply) && forall d | 0 <= d < |s.drivers| :: SnapshotsOk(s.apply, s.drivers[d])
  }

  lemma TimesAfterSwap(s: System, step: Step)
    requires Enabled(s, step) && step.SwapParent?
    requires TimesOk(s.apply) && SnapshotsOk(s.apply, s.drivers[step.d])
    ensures TimesOk(ParentAfter(s, step))
    ensures s.apply.startedAt.Some? ==> ParentAfter(s, step).startedAt == s.apply.startedAt
  {
  }

  /** The acting driver's snapshots are its old ones or the row as it was read. */
  lemma ActingSnapshots(s: System, step: Step)
    requires Enabled(s, step) && ByDriver(step)
    requires SnapshotsOk(s.apply, s.drivers[step.d])
    ensures SnapshotsOk(s.apply, ActingDriver(s, step))
  {
  }

  /** The row a direct drive write would leave. */
  function Written(row: ApplyRow, step: Step): ApplyRow
    requires step.WriteParent?
  {
    row.(state := step.state, startedAt := step.startedAt, completedAt := step.completedAt, error := step.error)
  }

  predicate StartKept(row: ApplyRow, row': ApplyRow) {
    row.startedAt.Some? ==> row'.startedAt == row.startedAt
  }

  /**
   Which steps keep the time columns: an apply-level claim needs a recorded start, a direct write must carry sound
   columns or have lost its lease, and syncing a remote stop never keeps them, because it stamps completed_at.
   */
  ghost predicate KeepsTimes(s: System, step: Step)
    requires Enabled(s, step)
  {
    match step
    case ClaimStop(_) => s.apply.startedAt.Some?
    case ClaimParent(_) => s.apply.startedAt.Some?
    case WriteParent(_, _, _, _, _) =>
      DirectWrite(s, step) ==> TimesOk(Written(s.apply, step)) && StartKept(s.apply, Written(s.apply, step))
    case SyncStopped(_) => false
    case _ => true
  }

  /** Exactly these steps keep them, projections over stale snapshots, retry expiry and starts included. */
  lemma TimesKeptIff(s: System, step: Step)
    requires Enabled(s, step) && Times(s)
    ensures TimesOk(ParentAfter(s, step)) && StartKept(s.apply, ParentAfter(s, step)) <==> KeepsTimes(s, step)
  {
    if step.SwapParent? {
      TimesAfterSwap(s, step);
    }
  }

  /** Snapshots stay true of a row whose recorded start is only ever added. */
  lemma TimesFrame(row: ApplyRow, row': ApplyRow, drivers: seq<Driver>)
    requires TimesOk(row') && StartKept(row, row')
    requires forall d | 0 <= d < |drivers| :: SnapshotsOk(row, drivers[d])
    ensures forall d | 0 <= d < |drivers| :: SnapshotsOk(row', drivers[d])
  {
  }

  lemma DriverTimes(s: System, step: Step)
    requires Enabled(s, step) && Times(s)
    ensures forall d | 0 <= d < |s.drivers| :: SnapshotsOk(s.apply, DriversAfter(s, step)[d])
  {
    if ByDriver(step) {
      ActingSnapshots(s, step);
    }
  }

  lemma TimesStep(s: System, step: Step)
    requires Enabled(s, step) && Times(s) && KeepsTimes(s, step)
    ensures Times(Perform(s, step)) && StartKept(s.apply, Perform(s, step).apply)
  {
    TimesKeptIff(s, step);
    DriverTimes(s, step);
    TimesFrame(s.apply, ParentAfter(s, step), DriversAfter(s, step));
  }

  ghost predicate TimesKept(s: System, steps: seq<Step>)
    requires ValidRun(s, steps)
    decreases |steps|
  {
    steps == [] || (KeepsTimes(s, steps[0]) && TimesKept(Perform(s, steps[0]), steps[1..]))
  }

  lemma {:induction false} TimesInv(s: System, steps: seq<Step>)
    requires ValidRun(s, steps) && TimesKept(s, steps) && Times(s)
    ensures Times(Execute(s, steps)) && StartKept(s.apply, Execute(s, steps).apply)
    decreases |steps|
  {
    if steps != [] {
      TimesStep(s, steps[0]);
      TimesInv(Perform(s, steps[0]), steps[1..]);
    }
  }

  /**
   Over any such run of a fresh apply, cut anywhere into `before` and `after`: a start time recorded
   at the cut is still there at the end, every non-pending row has one, and completed_at is set
   exactly for the terminal states other than stopped.
   */
  lemma TimeColumns(s: System, before: seq<Step>, after: seq<Step>)
    requires Initial(s) && ValidRun(s, before) && TimesKept(s, before)
    requires ValidRun(Execute(s, before), after) && TimesKept(Execute(s, before), after)
    ensures var m, t := Execute(s, before), Execute(Execute(s, before), after);
            TimesOk(t.apply) && StartKept(m.apply, t.apply)
  {
    TimesInv(s, before);
    TimesInv(Execute(s, before), after);
  }

  // ---------------------------------------------------------------- who may write what

  /** The driver's current lease on the apply. */
  predicate HoldsApply(s: System, d: nat)
    requires d < |s.drivers|
  {
    var lease := ParentLease(s.drivers[d].drive);
    lease.Some? && lease.value != 0 && s.apply.token == lease.value
  }

  /** A parent's state changes by one of seven writers, each under its own guard. */
  lemma ParentChangeAuthorized(s: System, step: Step)
    requires Enabled(s, step) && ParentAfter(s, step).state != s.apply.state
    ensures match step
            case SwapParent(d, _) =>
              var p := s.drivers[d].projection;
              && p.Listed? && LeaseHolds(s.apply, s.ops, p.lease) && s.apply.state == p.parent.state
              && ParentAfter(s, step).state == Projected(p.rows)
            case ClaimStop(_) => s.stop && ParentAfter(s, step).token == s.nextToken
            case ClaimParent(_) => |s.ops| == 1 && ParentAfter(s, step).token == s.nextToken
            case WriteParent(d, st, _, _, _) => HoldsApply(s, d) && ParentAfter(s, step).state == st
            case Expire(_, aged) => && s.apply.state == FailedRetryable && (aged || s.apply.attempt >= 10)
                                    && ParentAfter(s, step).state == Failed
            case RequestStart(_) => !s.stop && RunningFamily(s.apply.state) && ParentAfter(s, step).state == Stopped
            case SyncStopped(_) => s.stop && ParentAfter(s, step).state == Stopped
            case _ => false
  {
  }

  /**
   What an apply-level claim writes: a fresh lease; a waiting apply runs, a stopped one resumes, and both lose their
   completion time; a retry is counted and its last error cleared.
   */
  lemma ApplyClaimWrites(s: System, step: Step)
    requires Enabled(s, step) && (step.ClaimStop? || step.ClaimParent?)
    ensures var row, t := s.apply, Perform(s, step);
            && t.ops == s.ops && t.tasks == s.tasks
            && match row.state
               case Pending => t.apply == row.(token := s.nextToken, state := Running, completedAt := None)
               case Stopped => t.apply == row.(token := s.nextToken, state := Resuming, completedAt := None)
               case FailedRetryable =>
                 t.apply == row.(token := s.nextToken, state := Running, completedAt := None,
                                 attempt := row.attempt + 1, error := "")
               case _ => t.apply == row.(token := s.nextToken)
  {
  }

  /**
   A task changes by the driver that holds its row, by the one that holds the apply to stop it, or by retry expiry.
   */
  lemma TaskChangeAuthorized(s: System, step: Step)
    requires Enabled(s, step) && TasksAfter(s, step) != s.tasks
    ensures || step.Expire?
            || (&& step.DriveTask?
                && TasksAfter(s, step) == s.tasks[step.op := s.tasks[step.op][step.task := step.value]]
                && var v := s.drivers[step.d].drive;
                   if v.Stopping? then HoldsApply(s, step.d)
                   else v.Driving? && v.op == step.op < |s.ops| && v.token == s.ops[v.op].token > 0)
  {
  }

  /** A stop is closed over a terminal apply, or by the data plane's driver while it holds the apply. */
  lemma StopClosureAuthorized(s: System, step: Step)
    requires Enabled(s, step) && s.stop && !StopAfter(s, step)
    ensures Terminal(ParentAfter(s, step).state) || (step.FinishStop? && HoldsApply(s, step.d))
  {
  }

  /** A summary goes out over a terminal apply, for the swap its driver won. */
  lemma SummaryAuthorized(s: System, step: Step)
    requires Enabled(s, step) && PublishedAfter(s, step) != s.published
    ensures step.Publish? && Terminal(s.apply.state) && s.drivers[step.d].won.Some?
    ensures PublishedAfter(s, step) == s.published + [s.drivers[step.d].won.value]
  {
  }

  /** What an expired retry budget leaves: a failed apply, no retryable row and no unfinished task; the rest is kept. */
  lemma ExpiryFails(s: System, now: nat, aged: bool)
    requires Enabled(s, Expire(now, aged))
    ensures var t := Perform(s, Expire(now, aged));
            && t.apply == s.apply.(state := Failed, completedAt := t.apply.completedAt)
            && t.apply.completedAt == (if s.apply.completedAt.Some? then s.apply.completedAt else Some(now))
            && (forall i | 0 <= i < |s.ops| ::
                  t.ops[i] == if s.ops[i].state == FailedRetryable then s.ops[i].(state := Failed) else s.ops[i])
            && |t.tasks| == |s.tasks| && t.drivers == s.drivers
            && forall i | 0 <= i < |s.tasks| :: TasksExpired(s.tasks[i], t.tasks[i])
  {
  }

  ghost predicate TasksExpired(before: seq<Task>, after: seq<Task>) {
    |after| == |before| && forall k | 0 <= k < |before| ::
      after[k] == if before[k].state in {Completed, Failed, Reverted, Cancelled} then before[k]
                  else before[k].(state := Failed)
  }

  // ---------------------------------------------------------------- the retry budget

  /** The step hands a retryable apply to a driver again: its row, or for a lone row the apply itself. */
  predicate Redispatches(s: System, step: Step)
    requires Enabled(s, step)
  {
    && s.apply.state == FailedRetryable
    && (step.ClaimParent? || (step.ClaimOperation? && s.ops[step.op].state == FailedRetryable && |s.ops| > 1
                              && s.apply.attempt < MAX_RECOVERY_ATTEMPTS))
  }

  ghost function Redispatched(s: System, steps: seq<Step>): nat
    requires ValidRun(s, steps)
    decreases |steps|
  {
    if steps == [] then 0
    else (if Redispatches(s, steps[0]) then 1 else 0) + Redispatched(Perform(s, steps[0]), steps[1..])
  }

  lemma AttemptStep(s: System, step: Step)
    requires Enabled(s, step)
    ensures ParentAfter(s, step).attempt == s.apply.attempt + if Redispatches(s, step) then 1 else 0
    ensures Redispatches(s, step) ==> s.apply.attempt < MAX_RECOVERY_ATTEMPTS
  {
  }

  /** Every attempt counted is a retry handed out, and there are never more than ten, in any run. */
  lemma {:induction false} RetriesAreCounted(s: System, steps: seq<Step>)
    requires ValidRun(s, steps) && s.apply.attempt <= 10
    ensures Execute(s, steps).apply.attempt == s.apply.attempt + Redispatched(s, steps) <= 10
    decreases |steps|
  {
    if steps != [] {
      AttemptStep(s, steps[0]);
      RetriesAreCounted(Perform(s, steps[0]), steps[1..]);
    }
  }

  // ---------------------------------------------------------------- the unraced projection

  lemma LoadStep(s: System, d: nat)
    requires d < |s.drivers| && Leased(s.drivers[d].drive)
    ensures Enabled(s, LoadForProjection(d))
    ensures var t := Perform(s, LoadForProjection(d));
            && t.apply == s.apply && t.ops == s.ops && t.drivers[d].drive == s.drivers[d].drive
            && t.drivers[d].projection == Loaded(s.apply, DriveLease(s.drivers[d].drive), true)
  {
  }

  lemma ListStep(s: System, d: nat)
    requires d < |s.drivers| && s.drivers[d].projection.Loaded?
    ensures Enabled(s, ListRows(d))
    ensures var t, p := Perform(s, ListRows(d)), s.drivers[d].projection;
            && t.apply == s.apply && t.ops == s.ops
            && t.drivers[d].projection == Listed(p.parent, p.lease, p.reopen, s.ops)
  {
  }

  lemma SwapStep(s: System, d: nat, now: nat)
    requires d < |s.drivers| && s.drivers[d].projection.Listed?
    ensures Enabled(s, SwapParent(d, now))
    ensures var t, swap := Perform(s, SwapParent(d, now)), SwapOf(s, d, now);
            t.ops == s.ops && t.apply == if swap.Some? then Swapped(s.apply, swap.value) else s.apply
  {
  }

  /**
   Read, list and swap with nothing in between leave the parent at the projection of the rows, unless it is refused.
   */
  lemma UnracedProjection(s: System, d: nat, now: nat)
    requires d < |s.drivers| && Leased(s.drivers[d].drive)
    requires LeaseHolds(s.apply, s.ops, DriveLease(s.drivers[d].drive)) && s.ops != []
    ensures Enabled(s, LoadForProjection(d))
    ensures var s1 := Perform(s, LoadForProjection(d));
            Enabled(s1, ListRows(d)) && Enabled(Perform(s1, ListRows(d)), SwapParent(d, now))
    ensures var t := Perform(Perform(Perform(s, LoadForProjection(d)), ListRows(d)), SwapParent(d, now));
            t.apply.state == if Decide(s.apply, s.ops, true, now).Refuse? then s.apply.state else Projected(s.ops)
  {
    LoadStep(s, d);
    var s1 := Perform(s, LoadForProjection(d));
    ListStep(s1, d);
    SwapStep(Perform(s1, ListRows(d)), d, now);
  }
}
