/**
 Two runs from freshly queued applies that show why the order and finality theorems carry
 their conditions: a start request overtakes the rollout order, and a retry expiry rewrites
 a failure that is still being driven.
 */
module RolloutRaces {
  import opened ApplyStates
  import opened ApplyRows
  import opened RolloutProtocol
  import opened RolloutRows
  import opened RolloutOrder
  import opened RolloutSteps
  import opened RolloutProgress

  const IDLE := Driver(Free, Resting, None)
  const EAST := OpRow("e", "", Work, Rolling, Halt, Pending, 0, "")
  const WEST := OpRow("w", "", Work, Rolling, Halt, Pending, 0, "")
  const WAITING := [Task(Pending, "")]

  /** Two rolling deployments with one task each, freshly queued. */
  const QUEUED := System(ApplyRow(Pending, 0, 0, None, None, ""), [EAST, WEST], [WAITING, WAITING],
                         false, false, false, 1, 0, 0, [], [], [IDLE, IDLE])

  lemma FreshlyQueued()
    ensures Initial(QUEUED)
  {
  }

  // ---------------------------------------------------------------- a start overtakes the order

  const HALTED := [Task(Stopped, "")]
  const E_STOPPED := EAST.(state := Stopped)
  const W_STOPPED := WEST.(state := Stopped)

  const ENGINE_STOPS := WriteParent(0, Stopped, None, None, "")

  const ASKED := QUEUED.(stop := true, nextToken := 2)
  const STOPPING := ASKED.(apply := ApplyRow(Running, 2, 0, None, None, ""), nextToken := 3,
                          drivers := [IDLE.(drive := Stopping(2)), IDLE])
  const EAST_HALTS := STOPPING.(tasks := [HALTED, WAITING], nextToken := 4)
  const BOTH_HALT := EAST_HALTS.(tasks := [HALTED, HALTED], nextToken := 5)
  const SWEPT := BOTH_HALT.(ops := [E_STOPPED, W_STOPPED], nextToken := 6)
  const STOPPED := SWEPT.(apply := ApplyRow(Stopped, 2, 0, None, None, ""), direct := -1, nextToken := 7)
  const RESOLVED := STOPPED.(stop := false, nextToken := 8)
  const RELEASED := RESOLVED.(drivers := [IDLE, IDLE], nextToken := 9)
  const STARTED := RELEASED.(start := true, nextToken := 10)
  const EAST_RESUMES := STARTED.(ops := [EAST.(state := Resuming, token := 10), W_STOPPED], nextToken := 11,
                                drivers := [IDLE.(drive := Claimed(0, 10)), IDLE])
  const BOTH_RESUME := EAST_RESUMES.(ops := [EAST.(state := Resuming, token := 10),
                                             WEST.(state := Resuming, token := 11)], nextToken := 12,
                                     drivers := [IDLE.(drive := Claimed(0, 10)), IDLE.(drive := Claimed(1, 11))])

  lemma ToAsked()
    ensures Goes(QUEUED, RequestStop, ASKED)
  {
    assert QUEUED.tasks[0] != [];
  }

  lemma ToStopping()
    ensures Goes(ASKED, ClaimStop(0), STOPPING)
  {
    assert ASKED.ops[0].state == Pending;
  }

  lemma ToEastHalts()
    ensures Goes(STOPPING, DriveTask(0, 0, 0, Task(Stopped, "")), EAST_HALTS)
  {
    assert STOPPING.tasks[0][0 := Task(Stopped, "")] == EAST_HALTS.tasks[0];
    assert DriversAfter(STOPPING, DriveTask(0, 0, 0, Task(Stopped, ""))) == STOPPING.drivers;
  }

  lemma ToBothHalt()
    ensures Goes(EAST_HALTS, DriveTask(0, 1, 0, Task(Stopped, "")), BOTH_HALT)
  {
    assert EAST_HALTS.tasks[1][0 := Task(Stopped, "")] == BOTH_HALT.tasks[1];
    assert DriversAfter(EAST_HALTS, DriveTask(0, 1, 0, Task(Stopped, ""))) == EAST_HALTS.drivers;
  }

  lemma ToSwept()
    ensures Goes(BOTH_HALT, StopPendingRows(0), SWEPT)
  {
    SweepGoes(BOTH_HALT, 0);
    assert StopPending([EAST, WEST]) == [E_STOPPED, W_STOPPED];
  }

  lemma ToStopped()
    ensures Goes(SWEPT, ENGINE_STOPS, STOPPED)
  {
    assert DriversAfter(SWEPT, ENGINE_STOPS) == SWEPT.drivers;
  }

  lemma ToResolved()
    ensures Goes(STOPPED, FinishStop(0), RESOLVED)
  {
    assert DriversAfter(STOPPED, FinishStop(0)) == STOPPED.drivers;
  }

  lemma ToReleased()
    ensures Goes(RESOLVED, Abandon(0), RELEASED)
  {
  }

  lemma ToStarted()
    ensures Goes(RELEASED, RequestStart(false), STARTED)
  {
    assert RELEASED.tasks[0][0].state == Stopped;
  }

  lemma ToEastResumes()
    ensures Goes(STARTED, ClaimOperation(0, 0), EAST_RESUMES)
  {
  }

  lemma ToBothResume()
    ensures Goes(EAST_RESUMES, ClaimOperation(1, 1), BOTH_RESUME)
  {
  }

  lemma StartTail0() returns (tail: seq<Step>)
    ensures ValidRun(RELEASED, tail) && Execute(RELEASED, tail) == BOTH_RESUME && forall step <- tail :: !step.Expire?
  {
    tail := [];
    ToBothResume();
    Onwards(EAST_RESUMES, ClaimOperation(1, 1), BOTH_RESUME, tail);
    tail := [ClaimOperation(1, 1)] + tail;
    ToEastResumes();
    Onwards(STARTED, ClaimOperation(0, 0), EAST_RESUMES, tail);
    tail := [ClaimOperation(0, 0)] + tail;
    ToStarted();
    Onwards(RELEASED, RequestStart(false), STARTED, tail);
    tail := [RequestStart(false)] + tail;
  }

  lemma StartTail1() returns (tail: seq<Step>)
    ensures ValidRun(SWEPT, tail) && Execute(SWEPT, tail) == BOTH_RESUME && forall step <- tail :: !step.Expire?
  {
    tail := StartTail0();
    ToReleased();
    Onwards(RESOLVED, Abandon(0), RELEASED, tail);
    tail := [Abandon(0)] + tail;
    ToResolved();
    Onwards(STOPPED, FinishStop(0), RESOLVED, tail);
    tail := [FinishStop(0)] + tail;
    ToStopped();
    Onwards(SWEPT, ENGINE_STOPS, STOPPED, tail);
    tail := [ENGINE_STOPS] + tail;
  }

  lemma StartTail2() returns (tail: seq<Step>)
    ensures ValidRun(STOPPING, tail) && Execute(STOPPING, tail) == BOTH_RESUME && forall step <- tail :: !step.Expire?
  {
    tail := StartTail1();
    ToSwept();
    Onwards(BOTH_HALT, StopPendingRows(0), SWEPT, tail);
    tail := [StopPendingRows(0)] + tail;
    ToBothHalt();
    Onwards(EAST_HALTS, DriveTask(0, 1, 0, Task(Stopped, "")), BOTH_HALT, tail);
    tail := [DriveTask(0, 1, 0, Task(Stopped, ""))] + tail;
    ToEastHalts();
    Onwards(STOPPING, DriveTask(0, 0, 0, Task(Stopped, "")), EAST_HALTS, tail);
    tail := [DriveTask(0, 0, 0, Task(Stopped, ""))] + tail;
  }

  lemma StartTail3() returns (tail: seq<Step>)
    ensures ValidRun(QUEUED, tail) && Execute(QUEUED, tail) == BOTH_RESUME && forall step <- tail :: !step.Expire?
  {
    tail := StartTail2();
    ToStopping();
    Onwards(ASKED, ClaimStop(0), STOPPING, tail);
    tail := [ClaimStop(0)] + tail;
    ToAsked();
    Onwards(QUEUED, RequestStop, ASKED, tail);
    tail := [RequestStop] + tail;
  }

  /**
   From a fresh apply, a stop and a start let the second deployment be claimed while the first one, claimed
   just before it, has not been driven at all; no retry expiry is involved.
   */
  lemma StartOvertakes() returns (steps: seq<Step>)
    ensures Initial(QUEUED) && ValidRun(QUEUED, steps) && forall step <- steps :: !step.Expire?
    ensures Execute(QUEUED, steps) == BOTH_RESUME && !InOrder(BOTH_RESUME, 1)
    ensures BOTH_RESUME.drivers[0].drive.Claimed? && BOTH_RESUME.ops[0].state == Resuming == BOTH_RESUME.ops[1].state
  {
    FreshlyQueued();
    OutOfOrder();
    steps := StartTail3();
  }

  lemma OutOfOrder()
    ensures !InOrder(BOTH_RESUME, 1)
  {
    assert !OutOfTheWay(BOTH_RESUME.ops, 1, 0) && BOTH_RESUME.ops[0].deployment != BOTH_RESUME.ops[1].deployment;
  }

  // ---------------------------------------------------------------- an expiry rewrites a failure

  const FIRST_CLAIM := QUEUED.(ops := [EAST.(state := Running, token := 1), WEST], nextToken := 2,
                              drivers := [IDLE.(drive := Claimed(0, 1)), IDLE])
  const FIRST_DRIVE := FIRST_CLAIM.(nextToken := 3, drivers := [IDLE.(drive := Driving(0, 1, None)), IDLE])
  const FIRST_FAILS := FIRST_DRIVE.(tasks := [[Task(FailedRetryable, "")], WAITING], nextToken := 4)
  const FIRST_READ := FIRST_FAILS.(nextToken := 5,
                                 drivers := [IDLE.(drive := Deriving(0, 1, None, FailedRetryable, "")), IDLE])
  const FIRST_SETTLED := FIRST_READ.(ops := [EAST.(state := FailedRetryable, token := 1), WEST], nextToken := 6,
                                   drivers := [IDLE.(drive := Finished(0, 1, None, false)), IDLE])
  const LOADED := FIRST_SETTLED.(nextToken := 7,
                                 drivers := [Driver(Finished(0, 1, None, false),
                                                    Loaded(ApplyRow(Pending, 0, 0, None, None, ""), ByOp(0, 1), true),
                                                    None), IDLE])
  const LISTED := LOADED.(nextToken := 8,
                          drivers := [Driver(Finished(0, 1, None, false),
                                             Listed(ApplyRow(Pending, 0, 0, None, None, ""), ByOp(0, 1), true,
                                                    FIRST_SETTLED.ops), None), IDLE])
  const RETRYABLE := LISTED.(apply := ApplyRow(FailedRetryable, 0, 0, Some(8), None, ""), nextToken := 9,
                             swaps := [SwapEvent(Pending, FailedRetryable)],
                             drivers := [IDLE.(drive := Finished(0, 1, None, false)), IDLE])
  const FREED := RETRYABLE.(drivers := [IDLE, IDLE], nextToken := 10)
  const RECLAIMED := FREED.(apply := ApplyRow(FailedRetryable, 0, 1, Some(8), None, ""), nextToken := 11,
                            ops := [EAST.(state := FailedRetryable, token := 10), WEST],
                            drivers := [IDLE.(drive := Claimed(0, 10)), IDLE])
  const RETRIED := RECLAIMED.(nextToken := 12, drivers := [IDLE.(drive := Driving(0, 10, None)), IDLE])
  const SUCCEEDED := RETRIED.(tasks := [[Task(Completed, "")], WAITING], nextToken := 13)
  const EXPIRED := SUCCEEDED.(apply := ApplyRow(Failed, 0, 1, Some(8), Some(13), ""), direct := -1, nextToken := 14,
                              ops := [EAST.(state := Failed, token := 10), WEST],
                              tasks := [[Task(Completed, "")], [Task(Failed, "")]])
  const REREAD := EXPIRED.(nextToken := 15, drivers := [IDLE.(drive := Deriving(0, 10, None, Completed, "")), IDLE])
  const OVERWRITTEN := REREAD.(ops := [EAST.(state := Completed, token := 10), WEST], nextToken := 16,
                             drivers := [IDLE.(drive := Finished(0, 10, None, false)), IDLE])

  lemma OneTask(st: State)
    requires Faithful(st) && st != Failed
    ensures Derive(TaskStates([Task(st, "")])) == st && FirstFailedTaskError([Task(st, "")]) == ""
  {
    assert TaskStates([Task(st, "")]) == [st];
    DeriveSingleton(st);
  }

  lemma RetryableProjection(rows: seq<OpRow>)
    requires |rows| == 2 && rows[0].state == FailedRetryable && rows[1].state == Pending
    ensures Decide(QUEUED.apply, rows, true, 8) == Swap(FailedRetryable, "", Some(8), None)
  {
    var ss := States(Children(rows));
    assert ss == [FailedRetryable, Pending];
    assert ss[0] in ss;
  }

  lemma RetryableSwap()
    ensures SwapOf(LISTED, 0, 8) == Some(Swap(FailedRetryable, "", Some(8), None))
  {
    RetryableProjection(FIRST_SETTLED.ops);
  }

  lemma ToFirstClaim()
    ensures Goes(QUEUED, ClaimOperation(0, 0), FIRST_CLAIM)
  {
  }

  lemma ToFirstDrive()
    ensures Goes(FIRST_CLAIM, LoadParent(0), FIRST_DRIVE)
  {
  }

  lemma ToFirstFails()
    ensures Goes(FIRST_DRIVE, DriveTask(0, 0, 0, Task(FailedRetryable, "")), FIRST_FAILS)
  {
    assert FIRST_DRIVE.tasks[0][0 := Task(FailedRetryable, "")] == FIRST_FAILS.tasks[0];
    assert DriversAfter(FIRST_DRIVE, DriveTask(0, 0, 0, Task(FailedRetryable, ""))) == FIRST_DRIVE.drivers;
  }

  lemma ToFirstRead()
    ensures Goes(FIRST_FAILS, ReadTasks(0), FIRST_READ)
  {
    OneTask(FailedRetryable);
    ReadGoes(FIRST_FAILS, 0, FailedRetryable, "");
  }

  lemma ToFirstSettled()
    ensures Goes(FIRST_READ, SettleFromTasks(0), FIRST_SETTLED)
  {
    SettleGoes(FIRST_READ, 0);
  }

  lemma ToLoaded()
    ensures Goes(FIRST_SETTLED, LoadForProjection(0), LOADED)
  {
  }

  lemma ToListed()
    ensures Goes(LOADED, ListRows(0), LISTED)
  {
  }

  lemma ToRetryable()
    ensures Goes(LISTED, SwapParent(0, 8), RETRYABLE)
  {
    RetryableSwap();
    MoveGoes(LISTED, 0, 8);
  }

  lemma ToFreed()
    ensures Goes(RETRYABLE, Abandon(0), FREED)
  {
  }

  lemma ToReclaimed()
    ensures Goes(FREED, ClaimOperation(0, 0), RECLAIMED)
  {
  }

  lemma ToRetried()
    ensures Goes(RECLAIMED, LoadParent(0), RETRIED)
  {
  }

  lemma ToSucceeded()
    ensures Goes(RETRIED, DriveTask(0, 0, 0, Task(Completed, "")), SUCCEEDED)
  {
    assert RETRIED.tasks[0][0 := Task(Completed, "")] == SUCCEEDED.tasks[0];
    assert DriversAfter(RETRIED, DriveTask(0, 0, 0, Task(Completed, ""))) == RETRIED.drivers;
  }

  lemma ToExpired()
    ensures Goes(SUCCEEDED, Expire(13, true), EXPIRED)
  {
    ExpireGoes(SUCCEEDED, 13);
    assert ExpireRetryable(SUCCEEDED.ops) == EXPIRED.ops;
    assert ExpiredTasks(SUCCEEDED.tasks) == EXPIRED.tasks by {
      assert ExpiredTasks(SUCCEEDED.tasks)[0] == EXPIRED.tasks[0];
      assert ExpiredTasks(SUCCEEDED.tasks)[1] == EXPIRED.tasks[1];
    }
  }

  lemma ToReread()
    ensures Goes(EXPIRED, ReadTasks(0), REREAD)
  {
    OneTask(Completed);
    ReadGoes(EXPIRED, 0, Completed, "");
  }

  lemma ToOverwritten()
    ensures Goes(REREAD, SettleFromTasks(0), OVERWRITTEN)
  {
    SettleGoes(REREAD, 0);
  }

  lemma ExpiryHead0() returns (tail: seq<Step>)
    ensures ValidRun(RECLAIMED, tail) && Execute(RECLAIMED, tail) == EXPIRED
  {
    tail := [];
    ToExpired();
    Onwards(SUCCEEDED, Expire(13, true), EXPIRED, tail);
    tail := [Expire(13, true)] + tail;
    ToSucceeded();
    Onwards(RETRIED, DriveTask(0, 0, 0, Task(Completed, "")), SUCCEEDED, tail);
    tail := [DriveTask(0, 0, 0, Task(Completed, ""))] + tail;
    ToRetried();
    Onwards(RECLAIMED, LoadParent(0), RETRIED, tail);
    tail := [LoadParent(0)] + tail;
  }

  lemma ExpiryHead1() returns (tail: seq<Step>)
    ensures ValidRun(LISTED, tail) && Execute(LISTED, tail) == EXPIRED
  {
    tail := ExpiryHead0();
    ToReclaimed();
    Onwards(FREED, ClaimOperation(0, 0), RECLAIMED, tail);
    tail := [ClaimOperation(0, 0)] + tail;
    ToFreed();
    Onwards(RETRYABLE, Abandon(0), FREED, tail);
    tail := [Abandon(0)] + tail;
    ToRetryable();
    Onwards(LISTED, SwapParent(0, 8), RETRYABLE, tail);
    tail := [SwapParent(0, 8)] + tail;
  }

  lemma ExpiryHead2() returns (tail: seq<Step>)
    ensures ValidRun(FIRST_READ, tail) && Execute(FIRST_READ, tail) == EXPIRED
  {
    tail := ExpiryHead1();
    ToListed();
    Onwards(LOADED, ListRows(0), LISTED, tail);
    tail := [ListRows(0)] + tail;
    ToLoaded();
    Onwards(FIRST_SETTLED, LoadForProjection(0), LOADED, tail);
    tail := [LoadForProjection(0)] + tail;
    ToFirstSettled();
    Onwards(FIRST_READ, SettleFromTasks(0), FIRST_SETTLED, tail);
    tail := [SettleFromTasks(0)] + tail;
  }

  lemma ExpiryHead3() returns (tail: seq<Step>)
    ensures ValidRun(FIRST_CLAIM, tail) && Execute(FIRST_CLAIM, tail) == EXPIRED
  {
    tail := ExpiryHead2();
    ToFirstRead();
    Onwards(FIRST_FAILS, ReadTasks(0), FIRST_READ, tail);
    tail := [ReadTasks(0)] + tail;
    ToFirstFails();
    Onwards(FIRST_DRIVE, DriveTask(0, 0, 0, Task(FailedRetryable, "")), FIRST_FAILS, tail);
    tail := [DriveTask(0, 0, 0, Task(FailedRetryable, ""))] + tail;
    ToFirstDrive();
    Onwards(FIRST_CLAIM, LoadParent(0), FIRST_DRIVE, tail);
    tail := [LoadParent(0)] + tail;
  }

  lemma ExpiryHead4() returns (tail: seq<Step>)
    ensures ValidRun(QUEUED, tail) && Execute(QUEUED, tail) == EXPIRED
  {
    tail := ExpiryHead3();
    ToFirstClaim();
    Onwards(QUEUED, ClaimOperation(0, 0), FIRST_CLAIM, tail);
    tail := [ClaimOperation(0, 0)] + tail;
  }

  lemma SettleTail0() returns (tail: seq<Step>)
    ensures ValidRun(EXPIRED, tail) && Execute(EXPIRED, tail) == OVERWRITTEN
  {
    tail := [];
    ToOverwritten();
    Onwards(REREAD, SettleFromTasks(0), OVERWRITTEN, tail);
    tail := [SettleFromTasks(0)] + tail;
    ToReread();
    Onwards(EXPIRED, ReadTasks(0), REREAD, tail);
    tail := [ReadTasks(0)] + tail;
  }

  /**
   A retry that outlives its expiry turns the failed row of a failed apply into a completed one, from a fresh apply.
   */
  lemma FailureIsOverwritten() returns (before: seq<Step>, rest: seq<Step>)
    ensures Initial(QUEUED) && ValidRun(QUEUED, before) && Execute(QUEUED, before) == EXPIRED
    ensures EXPIRED.apply.state == EXPIRED.ops[0].state == Failed
    ensures ValidRun(EXPIRED, rest) && Execute(EXPIRED, rest) == OVERWRITTEN && OVERWRITTEN.ops[0].state == Completed
  {
    FreshlyQueued();
    before := ExpiryHead4();
    rest := SettleTail0();
  }

  // ---------------------------------------------------------------- a failed shard strands its finalizer

  const SHARD := OpRow("e", "n/0/t", Work, Rolling, Continue, Pending, 0, "")
  const FINALIZER := OpRow("e", "n/group_finalizer", Finalizer, Rolling, Continue, Pending, 0, "")
  const LATER := OpRow("w", "n/0/t", Work, Rolling, Continue, Pending, 0, "")
  const BROKEN := Task(Failed, "duplicate key")

  /** A shard and its namespace's finalizer in one deployment, and the same shard in the next; failures let pass. */
  const SHARDED := System(ApplyRow(Pending, 0, 0, None, None, ""), [SHARD, FINALIZER, LATER], [WAITING, [], WAITING],
                          false, false, false, 1, 0, 0, [], [], [IDLE])
  const SHARD_FAILS := SHARDED.(ops := [SHARD.(state := Failed, token := 1, error := "duplicate key"),
                                        FINALIZER, LATER],
                                tasks := [[BROKEN], [], WAITING], nextToken := 6,
                                drivers := [IDLE.(drive := Finished(0, 1, None, false))])

  lemma ShardKeys()
    ensures KeyNamespace("n/0/t") == KeyNamespace("n/group_finalizer") == "n"
  {
    assert "n/0/t"[1..] == "/0/t" && "n/group_finalizer"[1..] == "/group_finalizer";
    assert KeyNamespace("/0/t") == "" == KeyNamespace("/group_finalizer");
  }

  lemma ShardFailsRun() returns (steps: seq<Step>)
    ensures Leads(SHARDED, steps, SHARD_FAILS)
  {
    ClaimGoes(SHARDED, 0, 0);
    var a := Perform(SHARDED, ClaimOperation(0, 0));
    LoadGoes(a, 0);
    var b := Perform(a, LoadParent(0));
    One(SHARDED, ClaimOperation(0, 0));
    steps := [ClaimOperation(0, 0)];
    Extend(SHARDED, steps, a, LoadParent(0), b);
    steps := steps + [LoadParent(0)];
    var rest := ShardFailsTail(b);
    AppendTo(SHARDED, steps, b, rest, SHARD_FAILS);
    steps := steps + rest;
  }

  lemma ShardFailsTail(b: System) returns (rest: seq<Step>)
    requires b == SHARDED.(ops := [SHARD.(state := Running, token := 1), FINALIZER, LATER], nextToken := 3,
                           drivers := [IDLE.(drive := Driving(0, 1, None))])
    ensures Leads(b, rest, SHARD_FAILS)
  {
    DriveTaskGoes(b, 0, 0, BROKEN);
    var c := Perform(b, DriveTask(0, 0, 0, BROKEN));
    assert WAITING[0 := BROKEN] == [BROKEN];
    assert c.tasks == [[BROKEN], [], WAITING];
    BrokenTask();
    ReadGoes(c, 0, Failed, "duplicate key");
    var e := Perform(c, ReadTasks(0));
    SettleGoes(e, 0);
    var f := Perform(e, SettleFromTasks(0));
    assert f.ops == SHARD_FAILS.ops && f.drivers == SHARD_FAILS.drivers;
    One(b, DriveTask(0, 0, 0, BROKEN));
    rest := [DriveTask(0, 0, 0, BROKEN)];
    Extend(b, rest, c, ReadTasks(0), e);
    rest := rest + [ReadTasks(0)];
    Extend(b, rest, e, SettleFromTasks(0), f);
    rest := rest + [SettleFromTasks(0)];
  }

  lemma BrokenTask()
    ensures Derive(TaskStates([BROKEN])) == Failed && FirstFailedTaskError([BROKEN]) == "duplicate key"
  {
    assert TaskStates([BROKEN]) == [Failed];
    DeriveSingleton(Failed);
  }

  /** From a fresh apply whose policy is to continue: the finalizer and the next deployment are stranded for good. */
  lemma FailedShardStrands() returns (steps: seq<Step>)
    ensures Initial(SHARDED) && Leads(SHARDED, steps, SHARD_FAILS)
    ensures Leases(SHARD_FAILS) && Stranded(SHARD_FAILS, 1, 0)
    ensures forall i | 0 <= i < |SHARD_FAILS.ops| :: SHARD_FAILS.ops[i].onFailure == Continue
  {
    FreshlySharded();
    steps := ShardFailsRun();
    LeasesAfter(SHARDED, steps, SHARD_FAILS);
    StrandedThere();
  }

  lemma FreshlySharded()
    ensures Initial(SHARDED)
  {
  }

  lemma LeasesAfter(s: System, steps: seq<Step>, t: System)
    requires Initial(s) && Leads(s, steps, t)
    ensures Leases(t)
  {
    InitialLeases(s);
    LeasesInv(s, steps);
  }

  lemma StrandedThere()
    ensures Stranded(SHARD_FAILS, 1, 0)
    ensures forall i | 0 <= i < |SHARD_FAILS.ops| :: SHARD_FAILS.ops[i].onFailure == Continue
  {
    ShardKeys();
    assert IsWorkFor(SHARD_FAILS.ops, 1, 0);
  }
}
