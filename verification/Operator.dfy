/**
 The operator's own procedures over the stored rows: persisting an operation from
 its tasks, projecting the parent from the operation rows, settling a drive,
 reconciling with a terminal parent and reconciling a stranded stop. The protocol
 interleaves these procedures' statements; here each one runs on its own, so the
 contracts say what it achieves when nobody races it.
 */
module Operator {
  import opened ApplyStates
  import opened ApplyRows

  /** Result of one projection; Refused is every error return. */
  datatype Projection =
    | Refused
    | Projection(swapped: bool, previous: State, derived: State, becameTerminal: bool, count: nat)

  /** Marked: the row was durably written. Claimable: left for a later poll. */
  datatype Marking = WriteLost | Claimable | Marked

  datatype Settlement = Abandoned | NotMarked | Unprojected | Settled

  /**
   What the data plane did with a whole-apply stop drive: the columns it wrote, its tasks, and whether it closed the
   request.
   */
  datatype StopDrive =
    | DriveFailed
    | Drove(state: State, startedAt: Option<nat>, completedAt: Option<nat>, error: string,
            tasks: seq<seq<Task>>, closed: bool)

  datatype StopOutcome = NothingStranded | Retry | StopRefused | StopSettled

  const NO_TASKS := "operation has no tasks; invalid or stale claim"

  function Derived(ts: seq<Task>): State {
    Derive(TaskStates(ts))
  }

  /** What a drive leaves to persist: nothing, or a state with its failure reason. */
  datatype Own = AsIs | As(state: State, error: string)

  /**
   A finalizer's drive wrote its row. A task-less work row of a plan that changes only VSchemas follows its parent until
   it is completed. Every other row follows its own tasks.
   */
  function OwnResult(apply: ApplyRow, row: OpRow, ts: seq<Task>, vschemaOnly: bool): Own {
    if row.kind == Finalizer then AsIs
    else if ts == [] && row.key == "" && vschemaOnly then
      if row.state == Completed then AsIs else As(apply.state, apply.error)
    else As(Derived(ts), FirstFailedTaskError(ts))
  }

  /** A row that a drive of these tasks was settled into. */
  ghost predicate FollowsTasks(row: OpRow, ts: seq<Task>) {
    && row.state == Derive(TaskStates(ts))
    && (row.state == Completed <==> forall k | 0 <= k < |ts| :: ts[k].state == Completed)
    && (row.state == Failed <==> exists k | 0 <= k < |ts| :: ts[k].state == Failed)
    && (row.state == Failed ==> Reason(row.error, ts))
  }

  /** The first message a failed task left, if any did. */
  ghost predicate Reason(message: string, ts: seq<Task>) {
    if forall k | 0 <= k < |ts| :: !Explains(ts[k]) then message == ""
    else exists k | 0 <= k < |ts| :: && Explains(ts[k]) && message == ts[k].error
                                     && forall j | 0 <= j < k :: !Explains(ts[j])
  }

  predicate Explains(t: Task) {
    t.state == Failed && t.error != ""
  }

  lemma {:induction false} FirstReason(ts: seq<Task>)
    ensures Reason(FirstFailedTaskError(ts), ts)
  {
    if ts != [] && !Explains(ts[0]) {
      FirstReason(ts[1..]);
      assert forall k | 0 < k < |ts| :: ts[k] == ts[1..][k - 1];
      if k :| 0 <= k < |ts[1..]| && Explains(ts[1..][k]) && FirstFailedTaskError(ts[1..]) == ts[1..][k].error
              && forall j | 0 <= j < k :: !Explains(ts[1..][j]) {
        assert ts[k + 1] == ts[1..][k];
      }
    }
  }

  lemma SettledFollows(row: OpRow, ts: seq<Task>)
    requires ts != [] && row.state == Derived(ts) && (row.state == Failed ==> row.error == FirstFailedTaskError(ts))
    ensures FollowsTasks(row, ts)
  {
    var ss := TaskStates(ts);
    DecidedIff(ss);
    UndecidedIff(ss);
    FirstReason(ts);
    assert forall k | 0 <= k < |ts| :: ss[k] == ts[k].state && ss[k] in ss;
  }

  predicate Leaves(own: Own) {
    own.As? && !Persistable(own.state)
  }

  /** The rows after a settle marked row i and swept pending siblings for a pending stop. */
  function SettledRows(ops: seq<OpRow>, i: nat, own: Own, stop: bool): (r: seq<OpRow>)
    requires i < |ops|
    ensures |r| == |ops| && r[i].token == ops[i].token
    ensures own.As? && Persistable(own.state) ==> r[i].state == own.state
  {
    var marked := if own.AsIs? then ops else ops[i := WithState(ops[i], own.state, own.error)];
    if stop then StopPending(marked) else marked
  }

  // ---------------------------------------------------------------- the compare-and-swap

  /** One attempt to move the parent from an expected state. */
  datatype Attempt = Attempt(lease: Lease, decision: Decision)

  predicate Wins(row: ApplyRow, ops: seq<OpRow>, expected: State, a: Attempt) {
    a.decision.Swap? && LeaseHolds(row, ops, a.lease) && row.state == expected
  }

  function After(row: ApplyRow, ops: seq<OpRow>, expected: State, a: Attempt): ApplyRow {
    if Wins(row, ops, expected, a) then Swapped(row, a.decision) else row
  }

  function WinCount(row: ApplyRow, ops: seq<OpRow>, expected: State, attempts: seq<Attempt>): nat
    decreases |attempts|
  {
    if attempts == [] then 0
    else (if Wins(row, ops, expected, attempts[0]) then 1 else 0)
         + WinCount(After(row, ops, expected, attempts[0]), ops, expected, attempts[1..])
  }

  ghost predicate Moving(expected: State, attempts: seq<Attempt>) {
    forall k | 0 <= k < |attempts| :: attempts[k].decision.Swap? && attempts[k].decision.state != expected
  }

  /**
   However many drivers decided from the same parent state, exactly one of them moves the parent if any holds its lease
   while the parent is still there, and none otherwise.
   */
  lemma {:induction false} OneSwapWins(row: ApplyRow, ops: seq<OpRow>, expected: State, attempts: seq<Attempt>)
    requires Moving(expected, attempts)
    ensures WinCount(row, ops, expected, attempts) ==
            if row.state == expected && exists k | 0 <= k < |attempts| :: LeaseHolds(row, ops, attempts[k].lease)
            then 1 else 0
    decreases |attempts|
  {
    if attempts != [] {
      OneSwapWins(After(row, ops, expected, attempts[0]), ops, expected, attempts[1..]);
      assert forall k | 0 < k < |attempts| :: attempts[k] == attempts[1..][k - 1];
    }
  }

  /**
   The columns of a parent that a projection moved: the verdict of the rows, the first start and the first completion
   recorded, and the first failed row's message.
   */
  ghost predicate Stamped(row: ApplyRow, parent: ApplyRow, ops: seq<OpRow>, now: nat, row': ApplyRow) {
    && row'.state == Projected(ops) && row'.token == row.token && row'.attempt == row.attempt
    && (row.startedAt.Some? ==> row'.startedAt == row.startedAt)
    && (row.startedAt.None? && parent.startedAt.None? && row'.state != Pending ==> row'.startedAt == Some(now))
    && (row'.completedAt.Some? <==> Terminal(row'.state) && row'.state != Stopped)
    && (row'.completedAt.Some? ==>
          row'.completedAt == if parent.completedAt.Some? then parent.completedAt else Some(now))
    && (if row'.state == Failed && (exists op <- ops :: Blames(op)) then Accuses(row'.error, ops)
        else row'.error == parent.error)
  }

  predicate Blames(op: OpRow) {
    op.state == Failed && op.error != ""
  }

  /** Row k is the first failed row that left a message. */
  ghost predicate FirstBlamed(ops: seq<OpRow>, k: nat) {
    k < |ops| && Blames(ops[k]) && forall j | 0 <= j < k :: !Blames(ops[j])
  }

  /** The message names the deployment of the first failed row that left one. */
  ghost predicate Accuses(message: string, ops: seq<OpRow>) {
    exists k: nat :: FirstBlamed(ops, k) && message == "deployment " + ops[k].deployment + " failed: " + ops[k].error
  }

  lemma {:induction false} FirstAccused(ops: seq<OpRow>) returns (k: nat)
    ensures k <= |ops| && forall j | 0 <= j < k :: !Blames(ops[j])
    ensures FirstFailedOperationMessage(ops) ==
            if k == |ops| then "" else "deployment " + ops[k].deployment + " failed: " + ops[k].error
    ensures k < |ops| ==> Blames(ops[k])
  {
    if ops == [] || Blames(ops[0]) {
      k := 0;
    } else {
      var rest := FirstAccused(ops[1..]);
      k := rest + 1;
    }
  }

  lemma StampedBySwap(row: ApplyRow, parent: ApplyRow, ops: seq<OpRow>, reopen: bool, now: nat)
    ensures var d := Decide(parent, ops, reopen, now); d.Swap? ==> Stamped(row, parent, ops, now, Swapped(row, d))
  {
    var k := FirstAccused(ops);
    assert k < |ops| ==> FirstBlamed(ops, k) && ops[k] in ops;
  }

  /** The driver still holds row i's lease. */
  predicate Unraced(ops: seq<OpRow>, i: nat, token: nat) {
    i < |ops| && token != 0 && ops[i].token == token
  }

  /**
   A lease-scoped projection that refuses: it would take a terminal parent back to life without the reopen exception.
   */
  predicate Refuses(apply: ApplyRow, ops: seq<OpRow>) {
    ops == [] || (Terminal(apply.state) && !Terminal(Projected(ops)) && !Reopens(apply, ops, true))
  }

  lemma LoneTerminalRow(rows: seq<OpRow>)
    requires |rows| == 1 && Terminal(rows[0].state)
    ensures Projected(rows) == rows[0].state
  {
    var cs := Children(rows);
    assert States(cs) == [rows[0].state];
    DeriveSingleton(rows[0].state);
    SettledRolloutIsVerdict(cs);
  }

  predicate PendingOrTerminal(rows: seq<OpRow>) {
    forall op <- rows :: op.state == Pending || Terminal(op.state)
  }

  /** Rows that were all pending or terminal are all terminal once swept, and project to a terminal parent. */
  lemma SweptRowsSettle(rows: seq<OpRow>)
    requires rows != [] && PendingOrTerminal(rows)
    ensures Terminal(Projected(StopPending(rows))) && forall op <- StopPending(rows) :: Terminal(op.state)
  {
    var swept := StopPending(rows);
    var cs := Children(swept);
    forall i | 0 <= i < |rows| ensures Terminal(swept[i].state) && cs[i].state == swept[i].state {
      assert rows[i] in rows;
    }
    SettledRolloutIsVerdict(cs);
  }

  /** The swept rows, seen through the two aggregations. */
  lemma SweptStates(rows: seq<OpRow>)
    ensures var ss := States(Children(StopPending(rows)));
            && (Failed in ss <==> exists op <- rows :: op.state == Failed)
            && (FailedRetryable in ss <==> exists op <- rows :: op.state == FailedRetryable)
            && ((exists op <- rows :: op.state == Pending) ==> Stopped in ss)
  {
    var ss := States(Children(StopPending(rows)));
    assert forall i | 0 <= i < |rows| :: ss[i] == if rows[i].state == Pending then Stopped else rows[i].state;
  }

  lemma SweptChildren(rows: seq<OpRow>)
    ensures var cs := Children(StopPending(rows));
            && ((exists i | 0 <= i < |cs| :: HardFailure(cs[i])) <==>
                  exists op <- rows :: op.state == Failed && op.onFailure == Halt)
            && (AllTerminal(cs) <==> PendingOrTerminal(rows))
            && (forall i | 0 <= i < |cs| :: !HoldsRollout(cs, i))
  {
    var cs := Children(StopPending(rows));
    assert forall i | 0 <= i < |rows| :: HardFailure(cs[i]) <==> rows[i].state == Failed && rows[i].onFailure == Halt;
    assert forall i | 0 <= i < |rows| :: Terminal(cs[i].state) <==> rows[i].state == Pending || Terminal(rows[i].state);
  }

  /** Exactly when a swept rollout with a pending row settles. */
  lemma SweepSettlesIff(rows: seq<OpRow>)
    requires exists op <- rows :: op.state == Pending
    ensures Terminal(Projected(StopPending(rows))) <==>
            || (forall op <- rows :: op.state != Failed && op.state != FailedRetryable)
            || (exists op <- rows :: op.state == Failed && op.onFailure == Halt)
            || PendingOrTerminal(rows)
  {
    var cs := Children(StopPending(rows));
    SweptStates(rows);
    SweptChildren(rows);
    SettlesIff(cs);
  }

  lemma SettlesIff(cs: seq<Child>)
    requires Stopped in States(cs) && (forall i | 0 <= i < |cs| :: !HoldsRollout(cs, i))
    ensures Terminal(Rollout(cs)) <==>
            || (Failed !in States(cs) && FailedRetryable !in States(cs))
            || (exists i | 0 <= i < |cs| :: HardFailure(cs[i]))
            || AllTerminal(cs)
  {
    DerivedTerminalIff(States(cs));
    assert forall i | 0 <= i < |cs| :: cs[i].state == States(cs)[i];
  }

  class Store {
    var apply: ApplyRow
    var ops: seq<OpRow>
    var tasks: seq<seq<Task>>
    /** The plan has no table changes and at least one VSchema change. */
    var vschemaOnly: bool
    var stop: bool
    var gauge: int
    var summaries: nat

    // -------------------------------------------------------------- statements

    /**
     Compare-and-swap of the parent row; zero rows under a lost lease is an error, under a moved state a lost race.
     */
    method UpdateDerivedState(lease: Lease, expected: State, d: Decision) returns (owned: bool, swapped: bool)
      requires d.Swap?
      modifies `apply
      ensures owned == LeaseHolds(old(apply), ops, lease)
      ensures swapped == Wins(old(apply), ops, expected, Attempt(lease, d))
      ensures apply == After(old(apply), ops, expected, Attempt(lease, d))
    {
      owned, swapped := LeaseHolds(apply, ops, lease), false;
      if owned && apply.state == expected {
        apply := apply.(state := d.state, error := d.error, completedAt := d.completedAt);
        if apply.startedAt.None? {
          apply := apply.(startedAt := d.startedAt);
        }
        swapped := true;
      }
    }

    method WriteOperation(lease: Lease, i: nat, st: State, message: string) returns (owned: bool)
      requires i < |ops|
      modifies `ops
      ensures owned == LeaseHolds(apply, old(ops), lease)
      ensures ops == if owned then old(ops)[i := WithState(old(ops)[i], st, message)] else old(ops)
    {
      owned := LeaseHolds(apply, ops, lease);
      if owned {
        ops := ops[i := WithState(ops[i], st, message)];
      }
    }

    method MarkPendingStopped(lease: Lease) returns (owned: bool)
      modifies `ops
      ensures owned == LeaseHolds(apply, old(ops), lease)
      ensures ops == if owned then StopPending(old(ops)) else old(ops)
    {
      owned := LeaseHolds(apply, ops, lease);
      if owned {
        ops := StopPending(ops);
      }
    }

    // -------------------------------------------------------------- operation rows

    method PersistOperationState(lease: Lease, i: nat, derived: State, message: string) returns (r: Marking)
      requires i < |ops|
      modifies `ops
      ensures r == Claimable <==>
                derived !in {Completed, Failed, Stopped, Cancelled, Reverted, FailedRetryable, WaitingForCutover}
      ensures r == if !Persistable(derived) then Claimable
                   else if LeaseHolds(apply, old(ops), lease) then Marked else WriteLost
      ensures ops == if r == Marked then old(ops)[i := WithState(old(ops)[i], derived, message)] else old(ops)
    {
      var owned: bool;
      if derived == Completed {
        owned := WriteOperation(lease, i, Completed, "");
      } else if derived == Failed {
        owned := WriteOperation(lease, i, Failed, message);
      } else if derived == Stopped || derived == FailedRetryable || derived == WaitingForCutover {
        owned := WriteOperation(lease, i, derived, "");
      } else if Terminal(derived) {
        owned := WriteOperation(lease, i, derived, "");
      } else {
        return Claimable;
      }
      r := if owned then Marked else WriteLost;
    }

    method FirstFailedError(i: nat) returns (message: string)
      requires i < |tasks|
      ensures message == FirstFailedTaskError(tasks[i]) && Reason(message, tasks[i])
    {
      FirstReason(tasks[i]);
      var ts := tasks[i];
      for k := 0 to |ts|
        invariant FirstFailedTaskError(ts) == FirstFailedTaskError(ts[k..])
      {
        if ts[k].state == Failed && ts[k].error != "" {
          return ts[k].error;
        }
      }
      return "";
    }

    method MarkOperationFromOwnResult(lease: Lease, i: nat) returns (r: Marking)
      requires i < |ops| == |tasks|
      modifies `ops
      ensures var own := OwnResult(apply, old(ops)[i], tasks[i], vschemaOnly);
              && r == (if own.AsIs? then Marked else if Leaves(own) then Claimable
                       else if LeaseHolds(apply, old(ops), lease) then Marked else WriteLost)
              && ops == if r == Marked then SettledRows(old(ops), i, own, false) else old(ops)
      // a work row with tasks that is marked follows all of them, and is left alone exactly while they run on
      ensures old(ops)[i].kind == Work && tasks[i] != [] ==>
                && (r == Marked ==> FollowsTasks(ops[i], tasks[i]))
                && (r == Claimable <==> !Persistable(Derive(TaskStates(tasks[i]))))
    {
      if ops[i].kind == Finalizer {
        return Marked;
      }
      if |tasks[i]| == 0 && ops[i].key == "" && vschemaOnly {
        if ops[i].state == Completed {
          return Marked;
        }
        r := PersistOperationState(lease, i, apply.state, apply.error);
        return;
      }
      var states: seq<State> := [];
      for k := 0 to |tasks[i]|
        invariant states == TaskStates(tasks[i])[..k]
      {
        states := states + [tasks[i][k].state];
      }
      assert states == TaskStates(tasks[i]);
      var derived := DeriveApplyState(states);
      var message := FirstFailedError(i);
      r := PersistOperationState(lease, i, derived, message);
      if tasks[i] != [] && r == Marked {
        SettledFollows(ops[i], tasks[i]);
      }
    }

    // -------------------------------------------------------------- projection

    method FirstFailedMessage() returns (message: string)
      ensures message == FirstFailedOperationMessage(ops)
      ensures if exists op <- ops :: Blames(op) then Accuses(message, ops) else message == ""
    {
      var first := FirstAccused(ops);
      assert first < |ops| ==> FirstBlamed(ops, first) && ops[first] in ops;
      for k := 0 to |ops|
        invariant FirstFailedOperationMessage(ops) == FirstFailedOperationMessage(ops[k..])
      {
        if ops[k].state == Failed && ops[k].error != "" {
          return "deployment " + ops[k].deployment + " failed: " + ops[k].error;
        }
      }
      return "";
    }

    method DeriveFromRows() returns (base: State, derived: State)
      ensures base == BaseState(ops) && derived == Projected(ops)
    {
      var states: seq<State>, children: seq<Child> := [], [];
      for k := 0 to |ops|
        invariant states == States(Children(ops))[..k] && children == Children(ops)[..k]
      {
        states := states + [ops[k].state];
        children := children + [Child(ops[k].state, ops[k].onFailure == Continue, false)];
      }
      assert states == States(Children(ops)) && children == Children(ops);
      base := DeriveApplyState(states);
      derived := DeriveRolloutApplyState(children);
    }

    /** Everything a projection works out from its parent snapshot and the listed rows before it writes. */
    method DecideFromRows(parent: ApplyRow, reopen: bool, now: nat) returns (d: Decision, derived: State)
      ensures d == Decide(parent, ops, reopen, now)
      ensures derived == Projected(ops)
    {
      var base: State;
      base, derived := DeriveFromRows();
      if |ops| == 0 {
        return Refuse, derived;
      }
      var reopens := reopen && parent.state == Failed && base == Failed && derived == RunningDegraded;
      if Terminal(parent.state) && !Terminal(derived) && !reopens {
        return Refuse, derived;
      }
      var startedAt: Option<nat> := None;
      if parent.startedAt.None? && derived != Pending {
        startedAt := Some(now);
      }
      if parent.state == derived && startedAt.None? {
        return Keep, derived;
      }
      var completedAt: Option<nat> := None;
      if derived != Stopped && Terminal(derived) {
        completedAt := if parent.completedAt.Some? then parent.completedAt else Some(now);
      }
      var message := parent.error;
      if derived == Failed {
        var first := FirstFailedMessage();
        if first != "" {
          message := first;
        }
      }
      d := Swap(derived, message, startedAt, completedAt);
    }

    /** Projects the parent from the rows; `parent` is the caller's snapshot of the parent row. */
    method UpdateApplyStateFromOperations(lease: Lease, parent: ApplyRow, reopen: bool, now: nat)
      returns (r: Projection)
      modifies `apply, `gauge
      ensures var d := Decide(parent, ops, reopen, now);
              var moved := d.Swap? && LeaseHolds(old(apply), ops, lease) && old(apply).state == parent.state;
              && (r.Refused? <==> d.Refuse? || (d.Swap? && !LeaseHolds(old(apply), ops, lease)))
              && apply == (if moved then Swapped(old(apply), d) else old(apply))
              && (!r.Refused? ==> r == Projection(moved, parent.state, Projected(ops),
                                                  moved && !Terminal(parent.state) && Terminal(Projected(ops)), |ops|))
      ensures gauge - old(gauge) == if |ops| > 1 then Live(apply) - old(Live(apply)) else 0
      // a projection moves the parent to the rows' verdict and stamps its columns, or changes nothing
      ensures r.Projection? && r.swapped ==> Stamped(old(apply), parent, ops, now, apply)
      ensures !(r.Projection? && r.swapped) ==> apply == old(apply)
      ensures r.Refused? && LeaseHolds(old(apply), ops, lease) ==>
                ops == [] || (Terminal(parent.state) && !Terminal(Projected(ops)))
    {
      StampedBySwap(apply, parent, ops, reopen, now);
      var d, derived := DecideFromRows(parent, reopen, now);
      if d.Refuse? {
        return Refused;
      }
      if d.Keep? {
        return Projection(false, parent.state, derived, false, |ops|);
      }
      var owned, swapped := UpdateDerivedState(lease, parent.state, d);
      if !owned {
        return Refused;
      }
      if !swapped {
        return Projection(false, parent.state, derived, false, |ops|);
      }
      if |ops| > 1 {
        if !Terminal(parent.state) && Terminal(derived) {
          gauge := gauge - 1;
        } else if Terminal(parent.state) && !Terminal(derived) {
          gauge := gauge + 1;
        }
      }
      r := Projection(true, parent.state, derived, !Terminal(parent.state) && Terminal(derived), |ops|);
    }

    /**
     Reloads the parent and projects it under a lease, with the right to reopen; a lost lease only shows when it would
     write.
     */
    method ReloadAndProject(lease: Lease, now: nat) returns (p: Projection)
      modifies `apply, `gauge
      ensures p.Refused? ==> apply == old(apply) && gauge == old(gauge)
      ensures apply.token == old(apply).token
      ensures LeaseHolds(old(apply), ops, lease) ==> (p.Refused? <==> Refuses(old(apply), ops))
      ensures LeaseHolds(old(apply), ops, lease) && !p.Refused? ==>
                && apply.state == Projected(ops) && p.count == |ops|
                && p.becameTerminal == (!Terminal(old(apply).state) && Terminal(apply.state))
                && (|ops| > 1 ==> gauge - old(gauge) == Live(apply) - old(Live(apply)))
    {
      p := UpdateApplyStateFromOperations(lease, apply, true, now);
    }

    method PublishTerminalSummaryIfWon(p: Projection)
      requires p.Projection?
      modifies `summaries
      ensures summaries == old(summaries) + if p.becameTerminal && p.count > 1 && Terminal(apply.state) then 1 else 0
    {
      if !p.becameTerminal || p.count <= 1 {
        return;
      }
      if Terminal(apply.state) {
        summaries := summaries + 1;
      }
    }

    method CompletePendingStopIfApplyResolved()
      modifies `stop
      ensures stop == (old(stop) && !Terminal(apply.state))
    {
      if Terminal(apply.state) && stop {
        stop := false;
      }
    }

    /** The common end of a settle and of a stop reconciliation: project, publish if won, close a resolved stop. */
    method ProjectAndClose(lease: Lease, now: nat) returns (done: bool)
      modifies `apply, `stop, `gauge, `summaries
      ensures !done ==> apply == old(apply) && stop == old(stop)
      ensures apply.token == old(apply).token
      ensures LeaseHolds(old(apply), ops, lease) ==> (done <==> !Refuses(old(apply), ops))
      ensures LeaseHolds(old(apply), ops, lease) && done ==>
                && apply.state == Projected(ops)
                && stop == (old(stop) && !Terminal(apply.state))
                && (|ops| > 1 ==> gauge - old(gauge) == Live(apply) - old(Live(apply)))
                && summaries - old(summaries) ==
                   (if |ops| > 1 && !Terminal(old(apply).state) && Terminal(apply.state) then 1 else 0)
    {
      var p := ReloadAndProject(lease, now);
      if p.Refused? {
        return false;
      }
      PublishTerminalSummaryIfWon(p);
      CompletePendingStopIfApplyResolved();
      done := true;
    }

    // -------------------------------------------------------------- settling a drive

    /** Marks row i from its own result and, for a pending stop, stops the pending siblings. */
    method MarkAndSweep(i: nat, token: nat, ghost own: Own) returns (r: Marking)
      requires i < |ops| == |tasks| && own == OwnResult(apply, ops[i], tasks[i], vschemaOnly)
      modifies `ops
      ensures r == Claimable <==> Leaves(own)
      ensures r == Claimable || (r == WriteLost && own.As?) ==> ops == old(ops)
      ensures Unraced(old(ops), i, token) ==> r != WriteLost
      ensures Unraced(old(ops), i, token) && r == Marked ==> ops == SettledRows(old(ops), i, own, stop)
      ensures |ops| == |old(ops)|
      ensures old(ops)[i].kind == Work && tasks[i] != [] && r == Marked ==> FollowsTasks(ops[i], tasks[i])
    {
      var lease := ByOp(i, token);
      r := MarkOperationFromOwnResult(lease, i);
      if r == Marked && stop {
        var owned := MarkPendingStopped(lease);
        if !owned {
          r := WriteLost;
        }
      }
    }

    /** What the driver of row i does once its drive returned, under its operation lease. */
    method Settle(i: nat, token: nat, now: nat, ghost own: Own) returns (r: Settlement)
      requires i < |ops| == |tasks| && own == OwnResult(apply, ops[i], tasks[i], vschemaOnly)
      modifies `apply, `ops, `stop, `gauge, `summaries
      // the row was not written: nothing else is touched
      ensures r == NotMarked <==> Leaves(own)
      ensures r == NotMarked || (r == Abandoned && own.As?) ==>
                && apply == old(apply) && ops == old(ops) && stop == old(stop)
                && gauge == old(gauge) && summaries == old(summaries)
      // nobody raced: the row holds its own result, pending siblings are swept for a stop, the parent follows all rows
      ensures Unraced(old(ops), i, token) ==> r != Abandoned
      ensures Unraced(old(ops), i, token) && r != NotMarked ==> ops == SettledRows(old(ops), i, own, old(stop))
      ensures Unraced(old(ops), i, token) && r != NotMarked && own.As? ==> ops[i].state == own.state
      // for a work row with tasks: it is left alone exactly while they run on, and otherwise follows all of them
      ensures old(ops)[i].kind == Work && tasks[i] != [] ==>
                && (r == NotMarked <==> !Persistable(Derive(TaskStates(tasks[i]))))
                && (Unraced(old(ops), i, token) && r != NotMarked ==> i < |ops| && FollowsTasks(ops[i], tasks[i]))
      // the siblings keep their rows, except that a pending stop takes the pending ones
      ensures Unraced(old(ops), i, token) && r != NotMarked ==>
                |ops| == |old(ops)| && forall j | 0 <= j < |ops| && j != i ::
                  ops[j] == if old(stop) && old(ops)[j].state == Pending then old(ops)[j].(state := Stopped)
                            else old(ops)[j]
      ensures Unraced(old(ops), i, token) && r != NotMarked ==> (r == Unprojected <==> Refuses(old(apply), ops))
      ensures r == Unprojected ==> apply == old(apply) && stop == old(stop)
      ensures Unraced(old(ops), i, token) && r == Settled ==>
                && apply.state == Projected(ops)
                && stop == (old(stop) && !Terminal(apply.state))
                && (|ops| > 1 ==> gauge - old(gauge) == Live(apply) - old(Live(apply)))
                && summaries - old(summaries) ==
                   (if |ops| > 1 && !Terminal(old(apply).state) && Terminal(apply.state) then 1 else 0)
    {
      var marking := MarkAndSweep(i, token, own);
      if marking == WriteLost {
        return Abandoned;
      }
      if marking == Claimable {
        return NotMarked;
      }
      var done := ProjectAndClose(ByOp(i, token), now);
      r := if done then Settled else Unprojected;
    }

    /**
     An operation no task belongs to can never progress: its row fails, then the parent follows. A multi-operation
     drive passes its operation lease and the reloaded parent, a single-operation drive its apply lease and the parent
     as claimed.
     */
    method FailOperationWithoutTasks(i: nat, token: nat, lease: Lease, parent: ApplyRow, now: nat)
      returns (r: Settlement)
      requires i < |ops|
      modifies `apply, `ops, `gauge, `summaries
      ensures !Unraced(old(ops), i, token) ==> r == Abandoned && apply == old(apply) && ops == old(ops)
      ensures Unraced(old(ops), i, token) ==>
                r != Abandoned && ops == old(ops)[i := old(ops)[i].(state := Failed, error := NO_TASKS)]
      ensures r == Unprojected ==> apply == old(apply)
      // a parent that moved since the snapshot is left alone
      ensures Unraced(old(ops), i, token) && parent.state != old(apply).state ==> apply == old(apply)
      // otherwise it follows the rows, and a lone row always fails it
      ensures Unraced(old(ops), i, token) && parent.state == old(apply).state && LeaseHolds(old(apply), ops, lease) ==>
                && (r == Unprojected <==> Refuses(parent, ops))
                && (r == Settled ==> apply.state == Projected(ops))
                && (|ops| == 1 ==> r == Settled && apply.state == Failed)
    {
      var owned := WriteOperation(ByOp(i, token), i, Failed, NO_TASKS);
      if !owned {
        return Abandoned;
      }
      var p := UpdateApplyStateFromOperations(lease, parent, true, now);
      if |ops| == 1 {
        LoneTerminalRow(ops);
      }
      if p.Refused? {
        return Unprojected;
      }
      PublishTerminalSummaryIfWon(p);
      r := Settled;
    }

    // -------------------------------------------------------------- terminal parents

    /** Mirrors a terminal parent snapshot onto row i and projects back up without the right to reopen. */
    method ReconcileFromTerminalParent(lease: Lease, i: nat, parent: ApplyRow, now: nat) returns (ok: bool)
      requires i < |ops| && Terminal(parent.state)
      modifies `apply, `ops, `gauge
      ensures !LeaseHolds(old(apply), old(ops), lease) ==> !ok && apply == old(apply) && ops == old(ops)
      ensures LeaseHolds(old(apply), old(ops), lease) ==>
                ops == old(ops)[i := WithState(old(ops)[i], parent.state, parent.error)]
      // the snapshot is current: refused exactly when the siblings project to something non-terminal
      ensures LeaseHolds(old(apply), old(ops), lease) && parent == old(apply) ==>
                && ok == Terminal(Projected(ops))
                && (ok ==> apply.state == Projected(ops))
                && (!ok ==> apply == old(apply))
      // a single operation: mirroring down and projecting up never fails and never moves the parent
      ensures LeaseHolds(old(apply), old(ops), lease) && parent == old(apply) && |ops| == 1 ==>
                ok && apply.state == parent.state == ops[0].state && gauge == old(gauge)
    {
      var marking := PersistOperationState(lease, i, parent.state, parent.error);
      if marking != Marked {
        return false;
      }
      var p := UpdateApplyStateFromOperations(lease, parent, false, now);
      if |ops| == 1 {
        LoneTerminalRow(ops);
      }
      ok := !p.Refused?;
    }

    // -------------------------------------------------------------- stranded stops

    /** Stops the pending rows and lets the parent follow, under the apply lease just drawn. */
    method SweepAndClose(token: nat, now: nat) returns (done: bool)
      requires token != 0 && apply.token == token && ops != []
      modifies `apply, `ops, `stop, `gauge, `summaries
      ensures ops == StopPending(old(ops)) && apply.token == token
      ensures !done ==> apply == old(apply) && stop == old(stop) && !Terminal(Projected(ops))
      ensures done ==> apply.state == Projected(ops) && stop == (old(stop) && !Terminal(apply.state))
      ensures PendingOrTerminal(old(ops)) ==> done && Terminal(apply.state) && forall op <- ops :: Terminal(op.state)
    {
      ghost var rows := ops;
      var _ := MarkPendingStopped(ByApply(token));
      if PendingOrTerminal(rows) {
        SweptRowsSettle(rows);
      }
      done := ProjectAndClose(ByApply(token), now);
    }

    /** Stop reconciliation; `token` is the freshly drawn apply lease and `drive` what the data plane reports back. */
    method RecoverApplyPendingStop(token: nat, drive: StopDrive, now: nat) returns (r: StopOutcome)
      requires token != 0
      modifies `apply, `ops, `tasks, `stop, `gauge, `summaries
      // stranded: a stop of an unfinished apply with a pending row and none that a driver could still be holding
      ensures r != NothingStranded <==>
                && old(stop) && (old(apply).state == Pending || Active(old(apply).state))
                && (exists op <- old(ops) :: op.state == Pending) && (forall op <- old(ops) :: !Active(op.state))
      ensures r == NothingStranded ==> apply == old(apply) && ops == old(ops) && stop == old(stop)
      // the data plane failed: the request and the rows stay for the next poll
      ensures r == Retry ==> && drive.DriveFailed? && ops == old(ops) && stop && apply.token == token
                             && apply.state == if old(apply).state == Pending then Running else old(apply).state
      ensures drive.DriveFailed? ==> r == NothingStranded || r == Retry
      // otherwise no row is left pending, and a settled parent follows the swept rows
      ensures r == StopRefused || r == StopSettled ==> ops == StopPending(old(ops))
      ensures r == StopRefused || r == StopSettled ==> drive.Drove? && tasks == drive.tasks && apply.token == token
      ensures r == StopRefused ==> && !Terminal(Projected(ops)) && apply.state == drive.state && stop == !drive.closed
                                   && apply.startedAt == drive.startedAt && apply.completedAt == drive.completedAt
      ensures r == NothingStranded || r == Retry ==> tasks == old(tasks)
      ensures r == StopSettled && !Terminal(apply.state) ==> stop == !drive.closed
      ensures r == StopSettled ==> apply.state == Projected(ops) && (Terminal(apply.state) ==> !stop)
      // rows that were all pending or terminal always resolve the stop
      ensures drive.Drove? && r != NothingStranded && PendingOrTerminal(old(ops)) ==>
                (forall op <- ops :: Terminal(op.state)) && Terminal(apply.state) && !stop
    {
      if !StopReconcilable(apply, ops, stop) {
        return NothingStranded;
      }
      apply := ClaimedParent(apply, token);
      if drive.DriveFailed? {
        return Retry;
      }
      apply := apply.(state := drive.state, startedAt := drive.startedAt,
                      completedAt := drive.completedAt, error := drive.error);
      tasks := drive.tasks;
      if drive.closed {
        stop := false;
      }
      var done := SweepAndClose(token, now);
      r := if done then StopSettled else StopRefused;
    }
  }
}
