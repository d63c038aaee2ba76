/**
 Deployment order, cutover exclusivity and the stop gate, over every run of the
 rollout protocol.
 */
module RolloutOrder {
  import opened ApplyStates
  import opened ApplyRows
  import opened RolloutProtocol
  import opened RolloutRows

  // ---------------------------------------------------------------- first claims

  /** A row nobody ever claimed is still pending, or was stopped before it started. */
  ghost predicate Unclaimed(s: System) {
    forall i | 0 <= i < |s.ops| :: UnclaimedRow(s.ops[i])
  }

  ghost predicate UnclaimedRow(row: OpRow) {
    row.token == 0 ==> row.state == Pending || row.state == Stopped
  }

  lemma UnclaimedMove(s: System, t: System, d: int, e: RowEffect, i: nat)
    requires Moves(s, t, d, e) && Leases(s) && i < |s.ops| && UnclaimedRow(s.ops[i])
    ensures UnclaimedRow(t.ops[i])
  {
    RowMove(s, t, d, e, i);
    if e.Write? && e.op == i {
      WriteAuthority(s, d, i);
      assert DriveOk(s, s.drivers[d].drive);
    }
  }

  lemma {:induction false} UnclaimedInv(s: System, steps: seq<Step>)
    requires ValidRun(s, steps) && Leases(s) && Unclaimed(s)
    ensures Unclaimed(Execute(s, steps))
    decreases |steps|
  {
    if steps != [] {
      var t := Perform(s, steps[0]);
      StepMoves(s, steps[0]);
      forall i | 0 <= i < |t.ops| ensures UnclaimedRow(t.ops[i]) {
        assert UnclaimedRow(s.ops[i]);
        UnclaimedMove(s, t, Actor(steps[0]), RowEffectOf(s, steps[0]), i);
      }
      LeasesStep(s, steps[0]);
      UnclaimedInv(t, steps[1..]);
    }
  }

  /** Where an earlier deployment must be before a row of the given policies may start. */
  predicate Lets(cutover: CutoverPolicy, onFailure: OnFailure, earlier: State) {
    || earlier == Completed
    || (onFailure == Continue && earlier == Failed)
    || (cutover == Barrier && earlier in {WaitingForCutover, CuttingOver, RevertWindow})
  }

  /**
   Every earlier deployment lets a work row start; all work of its namespace is completed before a finalizer starts.
   */
  ghost predicate InTurn(rows: seq<OpRow>, i: nat)
    requires i < |rows|
  {
    if rows[i].kind == Work then
      forall j | 0 <= j < i && rows[j].deployment != rows[i].deployment ::
        Lets(rows[i].cutover, rows[i].onFailure, rows[j].state)
    else
      forall j | 0 <= j < |rows| && rows[j].kind == Work && rows[j].deployment == rows[i].deployment
                 && KeyNamespace(rows[j].key) == KeyNamespace(rows[i].key) :: rows[j].state == Completed
  }

  lemma GateIsTurn(rows: seq<OpRow>, i: nat)
    requires i < |rows|
    ensures StartGate(rows, i) <==> InTurn(rows, i)
  {
    if rows[i].kind == Finalizer {
      forall j | 0 <= j < |rows| ensures IsWorkFor(rows, i, j) <==>
          && rows[j].kind == Work && rows[j].deployment == rows[i].deployment
          && KeyNamespace(rows[j].key) == KeyNamespace(rows[i].key) {
      }
    }
  }

  /**
   The first claim of a row passes its start gate with no stop pending, unless a start request resumes a stopped row.
   */
  lemma FirstClaim(s: System, steps: seq<Step>, d: nat, i: nat)
    requires Initial(s) && ValidRun(s, steps) && i < |s.ops|
    requires Enabled(Execute(s, steps), ClaimOperation(d, i)) && Execute(s, steps).ops[i].token == 0
    ensures var t := Execute(s, steps);
            if t.ops[i].state == Pending then InTurn(t.ops, i) && !t.stop else t.ops[i].state == Stopped && t.start
  {
    InitialLeases(s);
    UnclaimedInv(s, steps);
    ClaimedInTurn(Execute(s, steps), d, i);
  }

  lemma ClaimedInTurn(t: System, d: nat, i: nat)
    requires Enabled(t, ClaimOperation(d, i)) && UnclaimedRow(t.ops[i]) && t.ops[i].token == 0
    ensures if t.ops[i].state == Pending then InTurn(t.ops, i) && !t.stop else t.ops[i].state == Stopped && t.start
  {
    GateIsTurn(t.ops, i);
  }

  /** What a claim writes: a fresh lease, and a new state for a row that waits to start, to resume or to cut over. */
  lemma ClaimWrites(s: System, step: Step)
    requires Enabled(s, step) && (step.ClaimOperation? || step.ClaimCutover?)
    ensures var t, row := Perform(s, step), s.ops[step.op];
            && t.ops == s.ops[step.op := t.ops[step.op]] && t.drivers[step.d].drive == Claimed(step.op, s.nextToken)
            && t.ops[step.op] == row.(token := s.nextToken, state := t.ops[step.op].state)
            && t.ops[step.op].state == match row.state
                                       case Pending => Running
                                       case Stopped => Resuming
                                       case WaitingForCutover => if step.ClaimCutover? then CuttingOver else row.state
                                       case _ => row.state
  {
  }

  // ---------------------------------------------------------------- what stays out of the way

  /** Row i's policy never looks at failures, or every expiry of the run is quiet. */
  ghost predicate Steady(s: System, steps: seq<Step>, i: nat)
    requires ValidRun(s, steps) && i < |s.ops|
  {
    s.ops[i].onFailure == Halt || QuietRun(s, steps)
  }

  /** What the order proofs carry along a run. */
  ghost predicate Standing(s: System, i: nat) {
    && |s.ops| > 1 && i < |s.ops| && Leases(s) && Settled(s, Completed)
    && (s.ops[i].onFailure == Continue ==> Settled(s, Failed))
  }

  lemma StandingStep(s: System, step: Step, i: nat)
    requires Enabled(s, step) && Standing(s, i) && (s.ops[i].onFailure == Continue ==> QuietExpiry(s, step))
    ensures Standing(Perform(s, step), i)
  {
    LeasesStep(s, step);
    SettledStep(s, step, Completed);
    if s.ops[i].onFailure == Continue {
      SettledStep(s, step, Failed);
    }
    StepMoves(s, step);
    RowMove(s, Perform(s, step), Actor(step), RowEffectOf(s, step), i);
  }

  lemma OutOfTheWayStays(s: System, t: System, d: int, e: RowEffect, i: nat, j: nat)
    requires Moves(s, t, d, e) && Standing(s, i) && j < |s.ops| && OutOfTheWay(s.ops, i, j)
    ensures OutOfTheWay(t.ops, i, j)
  {
    SettledRowMove(s, t, d, e, j);
    RowMove(s, t, d, e, i);
  }

  lemma InitialStanding(s: System, i: nat)
    requires Initial(s) && |s.ops| > 1 && i < |s.ops|
    ensures Standing(s, i)
  {
    InitialLeases(s);
  }

  // ---------------------------------------------------------------- one row cuts over at a time

  ghost predicate CutsInOrder(s: System, i: nat)
    requires i < |s.ops|
  {
    s.ops[i].state == CuttingOver ==> CutoverGate(s.ops, i) && s.ops[i].cutover == Barrier
  }

  lemma CutMove(s: System, t: System, d: int, e: RowEffect, i: nat)
    requires Moves(s, t, d, e) && Standing(s, i) && CutsInOrder(s, i)
    ensures CutsInOrder(t, i)
  {
    if t.ops[i].state == CuttingOver {
      RowMove(s, t, d, e, i);
      assert CutoverGate(s.ops, i);
      forall j | 0 <= j < i ensures OutOfTheWay(t.ops, i, j) {
        assert OutOfTheWay(s.ops, i, j);
        OutOfTheWayStays(s, t, d, e, i, j);
      }
    }
  }

  lemma {:induction false} CutsInv(s: System, steps: seq<Step>, i: nat)
    requires ValidRun(s, steps) && Standing(s, i) && Steady(s, steps, i) && CutsInOrder(s, i)
    ensures CutsInOrder(Execute(s, steps), i)
    ensures SamePlan(s.ops[i], Execute(s, steps).ops[i])
    decreases |steps|
  {
    if steps != [] {
      var t := Perform(s, steps[0]);
      StepMoves(s, steps[0]);
      CutMove(s, t, Actor(steps[0]), RowEffectOf(s, steps[0]), i);
      RowMove(s, t, Actor(steps[0]), RowEffectOf(s, steps[0]), i);
      StandingStep(s, steps[0], i);
      CutsInv(t, steps[1..], i);
    }
  }

  lemma CutsFromStart(s: System, steps: seq<Step>, i: nat)
    requires Initial(s) && |s.ops| > 1 && ValidRun(s, steps) && i < |s.ops| && Steady(s, steps, i)
    ensures CutsInOrder(Execute(s, steps), i)
  {
    InitialStanding(s, i);
    CutsInv(s, steps, i);
  }

  lemma OneCut(t: System, i: nat, j: nat)
    requires i < |t.ops| && j < |t.ops| && CutsInOrder(t, i) && CutsInOrder(t, j)
    requires t.ops[i].state == CuttingOver && t.ops[j].state == CuttingOver
    ensures i == j
  {
    assert j < i ==> OutOfTheWay(t.ops, i, j);
    assert i < j ==> OutOfTheWay(t.ops, j, i);
  }

  /**
   In every run of a multi-operation apply at most one row, necessarily a barrier row, is in the cutting-over state.
   */
  lemma OneRowCutsOver(s: System, steps: seq<Step>, i: nat, j: nat)
    requires Initial(s) && |s.ops| > 1 && ValidRun(s, steps) && j < |s.ops| && i < |s.ops|
    requires Steady(s, steps, i) && Steady(s, steps, j)
    requires Execute(s, steps).ops[i].state == CuttingOver && Execute(s, steps).ops[j].state == CuttingOver
    ensures i == j && Execute(s, steps).ops[i].cutover == Barrier
  {
    CutsFromStart(s, steps, i);
    CutsFromStart(s, steps, j);
    OneCut(Execute(s, steps), i, j);
  }

  /** A row starts to cut over only as a barrier row behind finished ones, with no stop pending and no deferral. */
  lemma EntersCutover(s: System, t: System, d: int, e: RowEffect, i: nat)
    requires Moves(s, t, d, e) && i < |s.ops| && t.ops[i].state == CuttingOver && s.ops[i].state != CuttingOver
    ensures s.ops[i].state == WaitingForCutover && s.ops[i].cutover == Barrier && |s.ops| > 1
    ensures !s.stop && !s.deferCutover
    ensures forall j | 0 <= j < i ::
              s.ops[j].state == Completed || (s.ops[i].onFailure == Continue && s.ops[j].state == Failed)
  {
    RowMove(s, t, d, e, i);
    forall j | 0 <= j < i
      ensures s.ops[j].state == Completed || (s.ops[i].onFailure == Continue && s.ops[j].state == Failed)
    {
      assert OutOfTheWay(s.ops, i, j);
    }
  }

  lemma NoDeferredCutover(s: System, t: System, d: int, e: RowEffect, i: nat)
    requires Moves(s, t, d, e) && i < |s.ops| && s.deferCutover && t.ops[i].state == CuttingOver
    ensures s.ops[i].state == CuttingOver
  {
    RowMove(s, t, d, e, i);
  }

  lemma StaysDeferred(s: System, step: Step)
    requires Enabled(s, step)
    ensures Perform(s, step).deferCutover == s.deferCutover
  {
  }

  /** While the cutover is deferred no row enters it, in any run. */
  lemma {:induction false} DeferredCutover(s: System, steps: seq<Step>, i: nat)
    requires ValidRun(s, steps) && Leases(s) && s.deferCutover && i < |s.ops|
    ensures Execute(s, steps).ops[i].state == CuttingOver ==> s.ops[i].state == CuttingOver
    ensures Execute(s, steps).deferCutover
    decreases |steps|
  {
    if steps != [] {
      var t := Perform(s, steps[0]);
      StepMoves(s, steps[0]);
      LeasesStep(s, steps[0]);
      StaysDeferred(s, steps[0]);
      if t.ops[i].state == CuttingOver {
        NoDeferredCutover(s, t, Actor(steps[0]), RowEffectOf(s, steps[0]), i);
      }
      DeferredCutover(t, steps[1..], i);
    }
  }

  // ---------------------------------------------------------------- rolling deployments are serial

  ghost predicate NoStart(steps: seq<Step>) {
    forall k | 0 <= k < |steps| :: !steps[k].RequestStart?
  }

  /** It is row i's turn: earlier deployments are out of a rolling row's way, and a finalizer's work is completed. */
  ghost predicate Ready(rows: seq<OpRow>, i: nat)
    requires i < |rows|
  {
    && (rows[i].kind == Finalizer ==> FinalizerGate(rows, i))
    && (rows[i].kind == Work && rows[i].cutover == Rolling ==>
          forall j | 0 <= j < i && rows[j].deployment != rows[i].deployment :: OutOfTheWay(rows, i, j))
  }

  /** A row that was ever claimed had, and still has, its turn. */
  ghost predicate InOrder(s: System, i: nat)
    requires i < |s.ops|
  {
    s.ops[i].token > 0 ==> Ready(s.ops, i)
  }

  /** A start resumes a stopped row that never ran before it is its turn. */
  ghost predicate Overtakes(s: System, e: RowEffect, i: nat)
    requires i < |s.ops|
  {
    e.Rotate? && e.op == i && s.ops[i].token == 0 && s.ops[i].state == Stopped && !Ready(s.ops, i)
  }

  /** A driver takes back the failure that a claimed "continue" row had been let past. */
  ghost predicate Reopens(s: System, e: RowEffect, i: nat)
    requires i < |s.ops|
  {
    && e.Write? && e.op < i && s.ops[e.op].state == Failed && !Finishing(e.state)
    && s.ops[i].token > 0 && s.ops[i].kind == Work && s.ops[i].cutover == Rolling && s.ops[i].onFailure == Continue
    && s.ops[e.op].deployment != s.ops[i].deployment
  }

  /** What holds of every run. */
  ghost predicate RunFacts(s: System, i: nat) {
    |s.ops| > 1 && i < |s.ops| && Leases(s) && Settled(s, Completed) && UnclaimedRow(s.ops[i])
  }

  lemma RunFactsStep(s: System, step: Step, i: nat)
    requires Enabled(s, step) && RunFacts(s, i)
    ensures RunFacts(Perform(s, step), i)
  {
    LeasesStep(s, step);
    SettledStep(s, step, Completed);
    StepMoves(s, step);
    UnclaimedMove(s, Perform(s, step), Actor(step), RowEffectOf(s, step), i);
  }

  lemma FinalizerGateStays(s: System, t: System, d: int, e: RowEffect, i: nat)
    requires Moves(s, t, d, e) && RunFacts(s, i) && FinalizerGate(s.ops, i)
    ensures FinalizerGate(t.ops, i)
  {
    RowMove(s, t, d, e, i);
    forall j | 0 <= j < |t.ops| && IsWorkFor(t.ops, i, j) ensures t.ops[j].state == Completed {
      RowMove(s, t, d, e, j);
      assert IsWorkFor(s.ops, i, j);
      SettledRowMove(s, t, d, e, j);
    }
  }

  /** An earlier row stays out of the way unless a driver takes back its failure. */
  lemma EarlierStays(s: System, t: System, d: int, e: RowEffect, i: nat, j: nat)
    requires Moves(s, t, d, e) && RunFacts(s, i) && j < |s.ops| && OutOfTheWay(s.ops, i, j)
    requires !(e.Write? && e.op == j && s.ops[j].state == Failed && !Finishing(e.state))
    ensures OutOfTheWay(t.ops, i, j)
  {
    RowMove(s, t, d, e, i);
    RowMove(s, t, d, e, j);
    if s.ops[j].state == Completed {
      SettledRowMove(s, t, d, e, j);
    } else if e.Rotate? {
      RotationStates(s, e.op, e.state);
    }
  }

  lemma ReadyStays(s: System, t: System, d: int, e: RowEffect, i: nat)
    requires Moves(s, t, d, e) && RunFacts(s, i) && Ready(s.ops, i) && s.ops[i].token > 0 && !Reopens(s, e, i)
    ensures Ready(t.ops, i)
  {
    RowMove(s, t, d, e, i);
    if s.ops[i].kind == Finalizer {
      FinalizerGateStays(s, t, d, e, i);
    } else if s.ops[i].cutover == Rolling {
      forall j | 0 <= j < i && t.ops[j].deployment != t.ops[i].deployment ensures OutOfTheWay(t.ops, i, j) {
        RowMove(s, t, d, e, j);
        EarlierStays(s, t, d, e, i, j);
      }
    }
  }

  /** Claiming row i does not change whether it is its turn. */
  lemma ReadyOnClaim(s: System, t: System, d: int, e: RowEffect, i: nat)
    requires Moves(s, t, d, e) && i < |s.ops| && e.Rotate? && e.op == i
    ensures Ready(t.ops, i) <==> Ready(s.ops, i)
  {
    RowMove(s, t, d, e, i);
    assert t.ops == s.ops[i := t.ops[i]];
    assert forall j | 0 <= j < i :: t.ops[j] == s.ops[j];
    if s.ops[i].kind == Finalizer {
      assert forall j | 0 <= j < |s.ops| :: IsWorkFor(t.ops, i, j) <==> IsWorkFor(s.ops, i, j);
    }
  }

  lemma ReopenedIsInTheWay(s: System, t: System, d: int, e: RowEffect, i: nat)
    requires Moves(s, t, d, e) && i < |s.ops| && Reopens(s, e, i)
    ensures t.ops[i].token > 0 && !Ready(t.ops, i)
  {
    RowMove(s, t, d, e, i);
    RowMove(s, t, d, e, e.op);
    assert !OutOfTheWay(t.ops, i, e.op);
  }

  /** Exactly two things break the order. */
  lemma InOrderMove(s: System, t: System, d: int, e: RowEffect, i: nat)
    requires Moves(s, t, d, e) && RunFacts(s, i) && InOrder(s, i)
    ensures InOrder(t, i) <==> !Overtakes(s, e, i) && !Reopens(s, e, i)
  {
    RowMove(s, t, d, e, i);
    if Reopens(s, e, i) {
      ReopenedIsInTheWay(s, t, d, e, i);
    } else if e.Rotate? && e.op == i {
      ReadyOnClaim(s, t, d, e, i);
    } else if s.ops[i].token > 0 {
      ReadyStays(s, t, d, e, i);
    }
  }

  /** Row i is in order at every point of the run. */
  ghost predicate AlwaysInOrder(s: System, steps: seq<Step>, i: nat)
    requires ValidRun(s, steps) && i < |s.ops|
    decreases |steps|
  {
    InOrder(s, i) && (steps == [] || AlwaysInOrder(Perform(s, steps[0]), steps[1..], i))
  }

  /** No step of the run overtakes or reopens. */
  ghost predicate OrderKept(s: System, steps: seq<Step>, i: nat)
    requires ValidRun(s, steps) && i < |s.ops|
    decreases |steps|
  {
    steps == [] ||
    (&& !Overtakes(s, RowEffectOf(s, steps[0]), i) && !Reopens(s, RowEffectOf(s, steps[0]), i)
     && OrderKept(Perform(s, steps[0]), steps[1..], i))
  }

  lemma {:induction false} OrderIff(s: System, steps: seq<Step>, i: nat)
    requires ValidRun(s, steps) && RunFacts(s, i) && InOrder(s, i)
    ensures AlwaysInOrder(s, steps, i) <==> OrderKept(s, steps, i)
    decreases |steps|
  {
    if steps != [] {
      var t, e := Perform(s, steps[0]), RowEffectOf(s, steps[0]);
      StepMoves(s, steps[0]);
      InOrderMove(s, t, Actor(steps[0]), e, i);
      RunFactsStep(s, steps[0], i);
      if InOrder(t, i) {
        OrderIff(t, steps[1..], i);
      }
    }
  }

  /**
   In every run a rolling deployment and a finalizer are claimed only in their turn, and stay in order, if and only if
   no start resumes them early and no driver takes back a failure they were let past.
   */
  lemma ClaimedInOrderIff(s: System, steps: seq<Step>, i: nat)
    requires Initial(s) && |s.ops| > 1 && ValidRun(s, steps) && i < |s.ops|
    ensures AlwaysInOrder(s, steps, i) <==> OrderKept(s, steps, i)
  {
    InitialLeases(s);
    OrderIff(s, steps, i);
  }

  lemma QuietMove(s: System, t: System, d: int, e: RowEffect, i: nat)
    requires Moves(s, t, d, e) && Standing(s, i) && !s.start
    ensures !Overtakes(s, e, i) && !Reopens(s, e, i)
  {
    if e.Write? && e.op < i && s.ops[e.op].state == Failed && s.ops[i].onFailure == Continue {
      SettledRowMove(s, t, d, e, e.op);
      RowMove(s, t, d, e, e.op);
    }
  }

  lemma QuietStep(s: System, step: Step, i: nat)
    requires Enabled(s, step) && Standing(s, i) && !s.start && !step.RequestStart?
    requires s.ops[i].onFailure == Continue ==> QuietExpiry(s, step)
    ensures !Overtakes(s, RowEffectOf(s, step), i) && !Reopens(s, RowEffectOf(s, step), i)
    ensures Standing(Perform(s, step), i) && Perform(s, step).ops[i].onFailure == s.ops[i].onFailure
    ensures !Perform(s, step).start
  {
    StepMoves(s, step);
    QuietMove(s, Perform(s, step), Actor(step), RowEffectOf(s, step), i);
    StandingStep(s, step, i);
    RowMove(s, Perform(s, step), Actor(step), RowEffectOf(s, step), i);
  }

  lemma {:induction false} QuietKeepsOrder(s: System, steps: seq<Step>, i: nat)
    requires ValidRun(s, steps) && Standing(s, i) && Steady(s, steps, i) && !s.start && NoStart(steps)
    ensures OrderKept(s, steps, i)
    decreases |steps|
  {
    if steps != [] {
      QuietStep(s, steps[0], i);
      QuietKeepsOrder(Perform(s, steps[0]), steps[1..], i);
    }
  }

  /** So without start requests, and for "continue" rows with quiet expiries, they always are. */
  lemma ClaimedInOrder(s: System, steps: seq<Step>, i: nat)
    requires Initial(s) && |s.ops| > 1 && ValidRun(s, steps) && i < |s.ops|
    requires Steady(s, steps, i) && NoStart(steps)
    ensures AlwaysInOrder(s, steps, i)
  {
    InitialStanding(s, i);
    QuietKeepsOrder(s, steps, i);
    ClaimedInOrderIff(s, steps, i);
  }

  // ---------------------------------------------------------------- a stop halts the rollout

  /** The stop request stays pending through the whole run. */
  ghost predicate StopHeld(s: System, steps: seq<Step>)
    requires ValidRun(s, steps)
    decreases |steps|
  {
    s.stop && (steps == [] || StopHeld(Perform(s, steps[0]), steps[1..]))
  }

  /** The row did not start: it is pending or stopped and nobody claimed it. */
  predicate NotStarted(row: OpRow) {
    row.token == 0 && (row.state == Pending || row.state == Stopped)
  }

  lemma NotStartedMove(s: System, t: System, d: int, e: RowEffect, i: nat)
    requires Moves(s, t, d, e) && Leases(s) && i < |s.ops| && s.stop && !s.start && NotStarted(s.ops[i])
    ensures NotStarted(t.ops[i])
  {
    RowMove(s, t, d, e, i);
    UnclaimedMove(s, t, d, e, i);
  }

  lemma NoNewCutover(s: System, t: System, d: int, e: RowEffect, i: nat)
    requires Moves(s, t, d, e) && i < |s.ops| && s.stop && t.ops[i].state == CuttingOver
    ensures s.ops[i].state == CuttingOver
  {
    RowMove(s, t, d, e, i);
  }

  /** While a stop is pending and no start is, no operation starts and no cutover starts. */
  lemma {:induction false} StopHaltsRollout(s: System, steps: seq<Step>, i: nat)
    requires ValidRun(s, steps) && Leases(s) && StopHeld(s, steps) && !s.start && i < |s.ops|
    ensures NotStarted(s.ops[i]) ==> NotStarted(Execute(s, steps).ops[i])
    ensures Execute(s, steps).ops[i].state == CuttingOver ==> s.ops[i].state == CuttingOver
    ensures !Execute(s, steps).start
    decreases |steps|
  {
    if steps != [] {
      var t := Perform(s, steps[0]);
      StepMoves(s, steps[0]);
      if NotStarted(s.ops[i]) {
        NotStartedMove(s, t, Actor(steps[0]), RowEffectOf(s, steps[0]), i);
      }
      if t.ops[i].state == CuttingOver {
        NoNewCutover(s, t, Actor(steps[0]), RowEffectOf(s, steps[0]), i);
      }
      LeasesStep(s, steps[0]);
      StopHaltsRollout(t, steps[1..], i);
    }
  }
}
