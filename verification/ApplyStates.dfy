/**
 The state vocabulary shared by applies, apply operations and tasks, and the two
 aggregations that turn child states into a parent state: the priority
 aggregation and the rollout projection, which adds the on_failure policy.
 */
module ApplyStates {

  datatype State =
    | Pending | Running | Checksumming | RunningDegraded | Paused | Resuming
    | WaitingForDeploy | WaitingForCutover | Recovering | CuttingOver | RevertWindow
    | Completed | Failed | FailedRetryable | Stopped | Cancelled | Reverted
    | PreparingBranch | ApplyingBranchChanges | ValidatingBranch
    | CreatingDeployRequest | ValidatingDeployRequest

  /** The registry's Terminal flag. A stopped apply counts as terminal. */
  predicate Terminal(s: State) {
    s.Completed? || s.Failed? || s.Stopped? || s.Cancelled? || s.Reverted?
  }

  predicate RunningFamily(s: State) {
    s.Running? || s.RunningDegraded?
  }

  /** A task's own notion of terminal: a stopped task can still be resumed. */
  predicate TerminalTask(s: State) {
    s.Completed? || s.Failed? || s.Reverted? || s.Cancelled?
  }

  /** Folds task-only states and states the aggregation does not know. */
  function Canonical(s: State): State {
    match s
    case Checksumming => Running
    case Resuming | PreparingBranch | ApplyingBranchChanges | CreatingDeployRequest => Pending
    case _ => s
  }

  // ---------------------------------------------------------------- aggregation

  /** What the priority aggregation means, stated over membership alone. */
  function Derive(ss: seq<State>): State {
    if ss == [] then Pending
    else if Failed in ss then Failed
    else if FailedRetryable in ss then FailedRetryable
    else if Cancelled in ss then Cancelled
    else if Stopped in ss then Stopped
    else if Reverted in ss then Reverted
    else if forall s | s in ss :: s == Completed then Completed
    else DeriveInFlight(ss)
  }

  /** The tail of the priority list: no failure, stop, cancel or revert, and not all complete. */
  function DeriveInFlight(ss: seq<State>): State {
    if Recovering in ss then Recovering
    else if CuttingOver in ss then CuttingOver
    else if WaitingForCutover in ss && (forall s | s in ss :: s == WaitingForCutover || s == Completed)
    then WaitingForCutover
    else if WaitingForDeploy in ss && (forall s | s in ss :: s == WaitingForDeploy || s == Completed)
    then WaitingForDeploy
    else if RevertWindow in ss then RevertWindow
    else if Running in ss || Checksumming in ss then Running
    else Pending
  }

  // A sequence's multiset counts every element exactly when there is nothing else in it.

  lemma {:induction false} CountFull<T>(xs: seq<T>, c: T)
    ensures multiset(xs)[c] <= |xs|
    ensures multiset(xs)[c] == |xs| <==> forall x | x in xs :: x == c
  {
    if xs != [] {
      var last := |xs| - 1;
      CountFull(xs[..last], c);
      assert xs == xs[..last] + [xs[last]];
      assert xs[last] in xs && forall x | x in xs[..last] :: x in xs;
    }
  }

  lemma {:induction false} CountPair<T>(xs: seq<T>, a: T, b: T)
    requires a != b
    ensures multiset(xs)[a] + multiset(xs)[b] <= |xs|
    ensures multiset(xs)[a] + multiset(xs)[b] == |xs| <==> forall x | x in xs :: x == a || x == b
  {
    if xs != [] {
      var last := |xs| - 1;
      CountPair(xs[..last], a, b);
      assert xs == xs[..last] + [xs[last]];
      assert xs[last] in xs && forall x | x in xs[..last] :: x in xs;
    }
  }

  function Canonicals(ss: seq<State>): (r: seq<State>)
    ensures |r| == |ss|
    ensures forall i | 0 <= i < |ss| :: r[i] == Canonical(ss[i])
  {
    seq(|ss|, i requires 0 <= i < |ss| => Canonical(ss[i]))
  }

  /** States that nothing else folds onto. */
  predicate Own(c: State) {
    Canonical(c) == c && !c.Running? && !c.Pending?
  }

  lemma OwnCanonical(s: State, c: State)
    requires Own(c)
    ensures Canonical(s) == c <==> s == c
  {
  }

  lemma OwnMember(ss: seq<State>, c: State)
    requires Own(c)
    ensures c in Canonicals(ss) <==> c in ss
  {
    var cs := Canonicals(ss);
    if c in ss {
      var i :| 0 <= i < |ss| && ss[i] == c;
      assert cs[i] == c;
    }
    if c in cs {
      var i :| 0 <= i < |cs| && cs[i] == c;
      OwnCanonical(ss[i], c);
    }
  }

  lemma OwnPairAll(ss: seq<State>, a: State, b: State)
    requires Own(a) && Own(b)
    ensures (forall x | x in Canonicals(ss) :: x == a || x == b) <==> (forall s | s in ss :: s == a || s == b)
  {
    var cs := Canonicals(ss);
    forall i | 0 <= i < |ss| ensures (cs[i] == a <==> ss[i] == a) && (cs[i] == b <==> ss[i] == b) {
      OwnCanonical(ss[i], a);
      OwnCanonical(ss[i], b);
    }
    if forall x | x in cs :: x == a || x == b {
      forall s | s in ss ensures s == a || s == b {
        var i :| 0 <= i < |ss| && ss[i] == s;
        assert cs[i] in cs;
      }
    }
    if forall s | s in ss :: s == a || s == b {
      forall x | x in cs ensures x == a || x == b {
        var i :| 0 <= i < |cs| && cs[i] == x;
        assert ss[i] in ss;
      }
    }
  }

  lemma RunningMember(ss: seq<State>)
    ensures Running in Canonicals(ss) <==> Running in ss || Checksumming in ss
  {
    var cs := Canonicals(ss);
    if Running in ss {
      var i :| 0 <= i < |ss| && ss[i] == Running;
      assert cs[i] == Running;
    }
    if Checksumming in ss {
      var i :| 0 <= i < |ss| && ss[i] == Checksumming;
      assert cs[i] == Running;
    }
    if Running in cs {
      var i :| 0 <= i < |cs| && cs[i] == Running;
      assert ss[i] in ss;
    }
  }

  /** Reading of a counting map: an absent key counts zero. */
  function At(counts: map<State, nat>, s: State): nat {
    if s in counts then counts[s] else 0
  }

  ghost predicate Counts(counts: map<State, nat>, ss: seq<State>) {
    forall c :: At(counts, c) == multiset(Canonicals(ss))[c]
  }

  method CountStates(taskStates: seq<State>) returns (counts: map<State, nat>)
    ensures Counts(counts, taskStates)
  {
    counts := map[];
    for i := 0 to |taskStates|
      invariant Counts(counts, taskStates[..i])
    {
      var c := Canonical(taskStates[i]);
      assert Canonicals(taskStates[..i + 1]) == Canonicals(taskStates[..i]) + [c];
      counts := counts[c := At(counts, c) + 1];
    }
    assert taskStates[..|taskStates|] == taskStates;
  }

  /** What the map says about one state nothing else folds onto. */
  lemma CountOwn(ss: seq<State>, counts: map<State, nat>, c: State)
    requires Counts(counts, ss) && Own(c)
    ensures At(counts, c) > 0 <==> c in ss
  {
    OwnMember(ss, c);
  }

  lemma CountOwnPair(ss: seq<State>, counts: map<State, nat>, a: State, b: State)
    requires Counts(counts, ss) && Own(a) && Own(b) && a != b
    ensures At(counts, a) + At(counts, b) == |ss| <==> forall s | s in ss :: s == a || s == b
  {
    CountPair(Canonicals(ss), a, b);
    OwnPairAll(ss, a, b);
  }

  lemma CountCompleted(ss: seq<State>, counts: map<State, nat>)
    requires Counts(counts, ss)
    ensures At(counts, Completed) == |ss| <==> forall s | s in ss :: s == Completed
  {
    CountFull(Canonicals(ss), Completed);
    OwnPairAll(ss, Completed, Completed);
  }

  /** The counting form of the priority list, from the first priority to all-completed. */
  method SelectState(ghost ss: seq<State>, counts: map<State, nat>, total: nat) returns (r: State)
    requires total == |ss| > 0
    requires Counts(counts, ss)
    ensures r == Derive(ss)
  {
    CountOwn(ss, counts, Failed);
    if At(counts, Failed) > 0 { return Failed; }
    CountOwn(ss, counts, FailedRetryable);
    if At(counts, FailedRetryable) > 0 { return FailedRetryable; }
    CountOwn(ss, counts, Cancelled);
    if At(counts, Cancelled) > 0 { return Cancelled; }
    CountOwn(ss, counts, Stopped);
    if At(counts, Stopped) > 0 { return Stopped; }
    CountOwn(ss, counts, Reverted);
    if At(counts, Reverted) > 0 { return Reverted; }
    CountCompleted(ss, counts);
    if At(counts, Completed) == total { return Completed; }
    r := SelectInFlight(ss, counts, total);
  }

  method SelectInFlight(ghost ss: seq<State>, counts: map<State, nat>, total: nat) returns (r: State)
    requires total == |ss|
    requires Counts(counts, ss)
    ensures r == DeriveInFlight(ss)
  {
    CountOwn(ss, counts, Recovering);
    if At(counts, Recovering) > 0 { return Recovering; }
    CountOwn(ss, counts, CuttingOver);
    if At(counts, CuttingOver) > 0 { return CuttingOver; }
    CountOwn(ss, counts, WaitingForCutover);
    CountOwnPair(ss, counts, WaitingForCutover, Completed);
    if At(counts, WaitingForCutover) + At(counts, Completed) == total && At(counts, WaitingForCutover) > 0 {
      return WaitingForCutover;
    }
    CountOwn(ss, counts, WaitingForDeploy);
    CountOwnPair(ss, counts, WaitingForDeploy, Completed);
    if At(counts, WaitingForDeploy) + At(counts, Completed) == total && At(counts, WaitingForDeploy) > 0 {
      return WaitingForDeploy;
    }
    CountOwn(ss, counts, RevertWindow);
    if At(counts, RevertWindow) > 0 { return RevertWindow; }
    RunningMember(ss);
    if At(counts, Running) > 0 { return Running; }
    return Pending;
  }

  method DeriveApplyState(taskStates: seq<State>) returns (r: State)
    ensures r == Derive(taskStates)
  {
    if |taskStates| == 0 {
      return Pending;
    }
    var counts := CountStates(taskStates);
    r := SelectState(taskStates, counts, |taskStates|);
  }

  /** The aggregate depends only on which states occur, not on order or multiplicity. */
  lemma DeriveIgnoresOrder(a: seq<State>, b: seq<State>)
    requires forall s :: s in a <==> s in b
    ensures Derive(a) == Derive(b)
  {
    if a != [] { assert a[0] in b; }
    if b != [] { assert b[0] in a; }
  }

  /** None of the states that decide an aggregate whatever else occurs. */
  predicate Undecided(ss: seq<State>) {
    ss != [] && Failed !in ss && FailedRetryable !in ss && Cancelled !in ss && Stopped !in ss && Reverted !in ss
  }

  predicate Finished(ss: seq<State>) {
    forall s | s in ss :: s == Completed
  }

  /** The state occurs, next to nothing but completed children. */
  predicate Only(ss: seq<State>, c: State) {
    c in ss && forall s | s in ss :: s == c || s == Completed
  }

  /** When each deciding verdict is reached: its state occurs and no stronger one does. */
  lemma DecidedIff(ss: seq<State>)
    ensures Derive(ss) == Failed <==> Failed in ss
    ensures Derive(ss) == FailedRetryable <==> FailedRetryable in ss && Failed !in ss
    ensures Derive(ss) == Cancelled <==> Cancelled in ss && Failed !in ss && FailedRetryable !in ss
    ensures Derive(ss) == Stopped <==> Stopped in ss && Failed !in ss && FailedRetryable !in ss && Cancelled !in ss
    ensures Derive(ss) == Reverted <==>
            Reverted in ss && Failed !in ss && FailedRetryable !in ss && Cancelled !in ss && Stopped !in ss
  {
  }

  /** When each other verdict is reached; a completed child never hides an unfinished one. */
  lemma UndecidedIff(ss: seq<State>)
    ensures Derive(ss) == Completed <==> ss != [] && Finished(ss)
    ensures Derive(ss) == Recovering <==> Undecided(ss) && Recovering in ss
    ensures Derive(ss) == CuttingOver <==> Undecided(ss) && CuttingOver in ss && Recovering !in ss
    ensures Derive(ss) == WaitingForCutover <==> Only(ss, WaitingForCutover)
    ensures Derive(ss) == WaitingForDeploy <==> Only(ss, WaitingForDeploy)
    ensures Derive(ss) == RevertWindow <==>
            Undecided(ss) && RevertWindow in ss && Recovering !in ss && CuttingOver !in ss
    ensures Derive(ss) == Running <==>
            && Undecided(ss) && (Running in ss || Checksumming in ss)
            && Recovering !in ss && CuttingOver !in ss && RevertWindow !in ss
  {
    if ss != [] { assert ss[0] in ss; }
  }

  /** There is no other verdict but pending, so the two lemmas above settle every aggregate. */
  lemma OtherwisePending(ss: seq<State>)
    ensures Derive(ss) in {Failed, FailedRetryable, Cancelled, Stopped, Reverted, Completed, Recovering, CuttingOver,
                           WaitingForCutover, WaitingForDeploy, RevertWindow, Running, Pending}
  {
  }

  /** Whatever is left is pending. */
  lemma PendingIff(ss: seq<State>)
    ensures Derive(ss) == Pending <==>
            || ss == []
            || (&& Undecided(ss) && !Finished(ss) && !Only(ss, WaitingForCutover) && !Only(ss, WaitingForDeploy)
                && forall c | c in {Recovering, CuttingOver, RevertWindow, Running, Checksumming} :: c !in ss)
  {
    DecidedIff(ss);
    UndecidedIff(ss);
    OtherwisePending(ss);
  }

  /** The strength of a child; a calm child (rank 0) gives way to any other. */
  function Rank(s: State): nat {
    match s
    case Failed => 9
    case FailedRetryable => 8
    case Cancelled => 7
    case Stopped => 6
    case Reverted => 5
    case Recovering => 4
    case CuttingOver => 3
    case RevertWindow => 2
    case Running | Checksumming => 1
    case _ => 0
  }

  /** The aggregate is as strong as its strongest child, and no stronger. */
  lemma StrongestWins(ss: seq<State>)
    ensures forall s | s in ss :: Rank(s) <= Rank(Derive(ss))
    ensures Rank(Derive(ss)) > 0 ==> exists s | s in ss :: Rank(s) == Rank(Derive(ss))
  {
    DecidedIff(ss);
    UndecidedIff(ss);
  }

  lemma RankNames(ss: seq<State>, tt: seq<State>)
    requires Rank(Derive(ss)) == Rank(Derive(tt)) > 0
    ensures Derive(ss) == Derive(tt)
  {
    OtherwisePending(ss);
    OtherwisePending(tt);
  }

  lemma RanksJoin(a: seq<State>, b: seq<State>)
    ensures var x, y := Rank(Derive(a)), Rank(Derive(b)); Rank(Derive(a + b)) == if x < y then y else x
  {
    StrongestWins(a);
    StrongestWins(b);
    StrongestWins(a + b);
    assert forall s | s in a :: s in a + b;
    assert forall s | s in b :: s in a + b;
  }

  /** Calm verdicts. */
  lemma CalmIff(ss: seq<State>)
    requires ss != [] && Rank(Derive(ss)) == 0
    ensures Derive(ss) == if Finished(ss) then Completed
                          else if Only(ss, WaitingForCutover) then WaitingForCutover
                          else if Only(ss, WaitingForDeploy) then WaitingForDeploy
                          else Pending
  {
    UndecidedIff(ss);
    OtherwisePending(ss);
  }

  lemma OnlyJoins(a: seq<State>, b: seq<State>, c: State)
    ensures Finished(a + b) <==> Finished(a) && Finished(b)
    ensures Only(a + b, c) <==> (Only(a, c) && (Only(b, c) || Finished(b))) || (Finished(a) && Only(b, c))
  {
    assert forall s | s in a :: s in a + b;
    assert forall s | s in b :: s in a + b;
  }

  lemma OnlyOne(s: State, c: State)
    ensures (Only([s], c) <==> s == c) && (Finished([s]) <==> s == Completed)
  {
    var one := [s];
    assert one[0] == s && s in one;
    assert forall t | t in one :: t == s;
  }

  /** A calm aggregate in place of its children. */
  lemma CalmStandIn(a: seq<State>)
    requires a != [] && Rank(Derive(a)) == 0
    ensures var x := Derive(a);
            && (Finished([x]) <==> Finished(a))
            && (Only([x], WaitingForCutover) <==> Only(a, WaitingForCutover))
            && (Only([x], WaitingForDeploy) <==> Only(a, WaitingForDeploy))
  {
    CalmIff(a);
    OnlyOne(Derive(a), WaitingForCutover);
    OnlyOne(Derive(a), WaitingForDeploy);
    assert a[0] in a;
  }

  lemma CalmCompose(a: seq<State>, b: seq<State>)
    requires a != [] && b != [] && Rank(Derive(a)) == Rank(Derive(b)) == 0
    requires Rank(Derive(a + b)) == 0 && Rank(Derive([Derive(a)] + [Derive(b)])) == 0
    ensures Derive([Derive(a)] + [Derive(b)]) == Derive(a + b)
  {
    CalmIff(a + b);
    CalmIff([Derive(a)] + [Derive(b)]);
    CalmStandIn(a);
    CalmStandIn(b);
    OnlyJoins(a, b, WaitingForCutover);
    OnlyJoins(a, b, WaitingForDeploy);
    OnlyJoins([Derive(a)], [Derive(b)], WaitingForCutover);
    OnlyJoins([Derive(a)], [Derive(b)], WaitingForDeploy);
  }

  lemma RankOfOne(ss: seq<State>)
    ensures Rank(Derive([Derive(ss)])) == Rank(Derive(ss))
  {
    OtherwisePending(ss);
    DeriveSingleton(Derive(ss));
  }

  /** Aggregating in two stages, groups first, gives what aggregating everything at once gives. */
  lemma DeriveComposes(a: seq<State>, b: seq<State>)
    requires a != [] && b != []
    ensures Derive([Derive(a)] + [Derive(b)]) == Derive(a + b)
  {
    var pair := [Derive(a)] + [Derive(b)];
    RankOfOne(a);
    RankOfOne(b);
    RanksJoin([Derive(a)], [Derive(b)]);
    RanksJoin(a, b);
    if Rank(Derive(a + b)) > 0 {
      RankNames(pair, a + b);
    } else {
      CalmCompose(a, b);
    }
  }

  /** A completed child changes no aggregate but the empty one. */
  lemma CompletedIsNeutral(ss: seq<State>)
    requires ss != []
    ensures Derive(ss + [Completed]) == Derive(ss)
  {
    DeriveSingleton(Completed);
    RanksJoin(ss, [Completed]);
    if Rank(Derive(ss)) > 0 {
      RankNames(ss + [Completed], ss);
    } else {
      CalmIff(ss);
      CalmIff(ss + [Completed]);
      OnlyOne(Completed, WaitingForCutover);
      OnlyOne(Completed, WaitingForDeploy);
      OnlyJoins(ss, [Completed], WaitingForCutover);
      OnlyJoins(ss, [Completed], WaitingForDeploy);
    }
  }

  /** Exactly the child sets whose aggregate is terminal. */
  lemma DerivedTerminalIff(ss: seq<State>)
    ensures Terminal(Derive(ss)) <==>
            && ss != []
            && (|| Failed in ss
                || (FailedRetryable !in ss
                    && (Cancelled in ss || Stopped in ss || Reverted in ss || forall s | s in ss :: s == Completed)))
  {
  }

  /** The states for which a one-child aggregate is the child's own state. */
  predicate Faithful(s: State) {
    Terminal(s) || s in {Pending, Running, WaitingForDeploy, WaitingForCutover, Recovering, CuttingOver, RevertWindow,
                         FailedRetryable}
  }

  /** A one-child aggregate is the child's own state exactly for the states the aggregation names. */
  lemma DeriveSingleton(s: State)
    ensures Derive([s]) == s <==> Faithful(s)
  {
    assert s in [s];
    assert forall t | t in [s] :: t == s;
    match s case _ =>
  }

  // ---------------------------------------------------------------- rollout projection

  datatype Child = Child(state: State, continueOnFailure: bool, pauseOnFailure: bool)

  function States(cs: seq<Child>): (ss: seq<State>)
    ensures |ss| == |cs|
    ensures forall i | 0 <= i < |cs| :: ss[i] == cs[i].state
  {
    seq(|cs|, i requires 0 <= i < |cs| => cs[i].state)
  }

  /** A failed child that ends the rollout at once: halt, any unknown policy, or both flags set. */
  predicate HardFailure(c: Child) {
    c.state == Failed && c.continueOnFailure == c.pauseOnFailure
  }

  /** A failed child under an unreleased pause with later unfinished work to hold. */
  predicate HoldsRollout(cs: seq<Child>, i: nat)
    requires i < |cs|
  {
    && cs[i].state == Failed && cs[i].pauseOnFailure && !cs[i].continueOnFailure
    && exists j | i < j < |cs| :: !Terminal(cs[j].state)
  }

  predicate AllTerminal(cs: seq<Child>) {
    forall i | 0 <= i < |cs| :: Terminal(cs[i].state)
  }

  /** What the rollout projection means. */
  function Rollout(cs: seq<Child>): State {
    var base := Derive(States(cs));
    if base != Failed then base
    else if exists i | 0 <= i < |cs| :: HardFailure(cs[i]) then Failed
    else if exists i | 0 <= i < |cs| :: HoldsRollout(cs, i) then Paused
    else if AllTerminal(cs) then Failed
    else RunningDegraded
  }

  method HasLaterNonTerminal(cs: seq<Child>, failedIndex: nat) returns (found: bool)
    requires failedIndex < |cs|
    ensures found <==> exists j | failedIndex < j < |cs| :: !Terminal(cs[j].state)
  {
    for later := failedIndex + 1 to |cs|
      invariant forall j | failedIndex < j < later :: Terminal(cs[j].state)
    {
      if !Terminal(cs[later].state) {
        return true;
      }
    }
    return false;
  }

  method DeriveRolloutApplyState(children: seq<Child>) returns (r: State)
    ensures r == Rollout(children)
  {
    if |children| == 0 {
      return Pending;
    }
    var base := DeriveApplyState(States(children));
    if base != Failed {
      return base;
    }
    var allTerminal, hardFail, pausedHold := true, false, false;
    for i := 0 to |children|
      invariant allTerminal <==> forall j | 0 <= j < i :: Terminal(children[j].state)
      invariant hardFail <==> exists j | 0 <= j < i :: HardFailure(children[j])
      invariant pausedHold <==> exists j | 0 <= j < i :: HoldsRollout(children, j)
    {
      var c := children[i];
      var later := HasLaterNonTerminal(children, i);
      if !Terminal(c.state) {
        allTerminal := false;
      }
      if c.state == Failed {
        if c.continueOnFailure && c.pauseOnFailure {
          hardFail := true;
        } else if c.continueOnFailure {
        } else if c.pauseOnFailure && later {
          pausedHold := true;
        } else if c.pauseOnFailure {
        } else {
          hardFail := true;
        }
      }
      assert HoldsRollout(children, i) <==> c.state == Failed && c.pauseOnFailure && !c.continueOnFailure && later;
    }
    if hardFail { return Failed; }
    if pausedHold { return Paused; }
    if allTerminal { return Failed; }
    return RunningDegraded;
  }

  /** A failure decides at once, is held, is final or lets the rollout run on; without one the aggregate stands. */
  lemma RolloutIff(cs: seq<Child>)
    ensures (forall i | 0 <= i < |cs| :: cs[i].state != Failed) ==> Rollout(cs) == Derive(States(cs))
    ensures Rollout(cs) == Failed <==>
            && (exists i | 0 <= i < |cs| :: cs[i].state == Failed)
            && ((exists i | 0 <= i < |cs| :: HardFailure(cs[i])) || AllTerminal(cs))
    ensures Rollout(cs) == Paused <==>
            (forall i | 0 <= i < |cs| :: !HardFailure(cs[i])) && exists i | 0 <= i < |cs| :: HoldsRollout(cs, i)
    ensures Rollout(cs) == RunningDegraded <==>
            && (exists i | 0 <= i < |cs| :: cs[i].state == Failed) && !AllTerminal(cs)
            && forall i | 0 <= i < |cs| :: !HardFailure(cs[i]) && !HoldsRollout(cs, i)
  {
    var ss := States(cs);
    DecidedIff(ss);
    OtherwisePending(ss);
    if i :| 0 <= i < |cs| && cs[i].state == Failed {
      assert ss[i] in ss;
    } else {
      assert forall i | 0 <= i < |cs| :: ss[i] != Failed;
    }
  }

  /** The policy delays a verdict but never changes it: once every child is terminal the policies are irrelevant. */
  lemma SettledRolloutIsVerdict(cs: seq<Child>)
    requires cs != [] && AllTerminal(cs)
    ensures Rollout(cs) == Derive(States(cs))
    ensures Terminal(Rollout(cs))
  {
    var ss := States(cs);
    forall s | s in ss ensures Terminal(s) {
      var i :| 0 <= i < |ss| && ss[i] == s;
    }
    DerivedTerminalIff(ss);
    if !(Failed in ss || Cancelled in ss || Stopped in ss || Reverted in ss) {
      assert forall s | s in ss :: s == Completed;
    }
  }
}
