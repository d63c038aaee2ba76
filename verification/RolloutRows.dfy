/**
 What every run of the rollout protocol guarantees about the operation rows: leases
 are exclusive, every row change is authorized, and a finished row never changes
 again.
 */
module RolloutRows {
  import opened ApplyStates
  import opened ApplyRows
  import opened RolloutProtocol

  // ---------------------------------------------------------------- what a driver holds

  /** The driver is working on some operation row. */
  predicate Engaged(v: Drive) {
    !v.Free? && !v.Stopping?
  }

  /** The operation token a drive writes its row with; 0 when it carries none. */
  function TokenOf(v: Drive): nat {
    match v
    case Claimed(_, t) => t
    case Driving(_, t, _) => t
    case Deriving(_, t, _, _, _) => t
    case Finished(_, t, _, _) => t
    case Mirroring(_, lease, _) => if lease.ByOp? then lease.token else 0
    case _ => 0
  }

  /** The drive may still write its operation row; a finished drive may not. */
  predicate MayWrite(v: Drive) {
    Engaged(v) && !v.Finished?
  }

  predicate Unguarded(v: Drive) {
    v.Mirroring? && v.lease == NoLease
  }

  ghost predicate DriveOk(s: System, v: Drive) {
    && (Engaged(v) ==> v.op < |s.ops| && s.ops[v.op].token > 0 && TokenOf(v) < s.nextToken)
    && (Engaged(v) && !Unguarded(v) ==> TokenOf(v) > 0)
    && (Unguarded(v) ==> |s.ops| == 1)
    && (v.Mirroring? ==> Terminal(v.parent.state) && (Unguarded(v) || v.lease == ByOp(v.op, TokenOf(v))))
  }

  ghost predicate RowOk(s: System, row: OpRow) {
    row.token < s.nextToken && (row.state == Pending ==> row.token == 0)
  }

  ghost predicate Leases(s: System) {
    && s.nextToken > 0
    && (forall i | 0 <= i < |s.ops| :: RowOk(s, s.ops[i]))
    && (forall d | 0 <= d < |s.drivers| :: DriveOk(s, s.drivers[d].drive))
    && (forall d, e | 0 <= d < e < |s.drivers| ::
          TokenOf(s.drivers[d].drive) == TokenOf(s.drivers[e].drive) ==> TokenOf(s.drivers[d].drive) == 0)
  }

  // ---------------------------------------------------------------- steps seen from the rows

  /** A lease rotation by one of the two claims. */
  ghost predicate Rotates(s: System, i: nat, st: State) {
    && i < |s.ops|
    && (|| (CopyClaimable(s, i) && st == CopyClaimState(s.ops[i].state))
        || (CutoverClaimable(s, i) && st == CutoverClaimState(s.ops[i].state)))
  }

  /** Driver d holds row i's current lease, or mirrors a lone row without one. */
  ghost predicate Writes(s: System, d: int, i: nat) {
    && 0 <= d < |s.drivers| && i < |s.ops|
    && var v := s.drivers[d].drive;
       MayWrite(v) && v.op == i && (TokenOf(v) == s.ops[i].token || Unguarded(v))
  }

  /** The states a drive can write; running is only ever written onto a finalizer. */
  predicate Writable(kind: Kind, st: State) {
    Persistable(st) || (st == Running && kind == Finalizer)
  }

  /**
   What a drive can write: a read task set or a parent snapshot fixes it, and a driver that only claimed writes
   nothing.
   */
  predicate Says(v: Drive, st: State, message: string) {
    && !v.Claimed?
    && (v.Deriving? ==> Persistable(st) && st == v.derived && message == v.message)
    && (v.Mirroring? ==> st == v.parent.state && message == v.parent.error)
  }

  ghost predicate EffectOk(s: System, d: int, e: RowEffect) {
    match e
    case Rotate(i, st) => 0 <= d < |s.drivers| && Rotates(s, i, st)
    case Write(i, st, m) => Writes(s, d, i) && Writable(s.ops[i].kind, st) && Says(s.drivers[d].drive, st, m)
    case _ => true
  }

  /** How a driver's drive can change in a step with effect e. */
  ghost predicate ActorOk(s: System, v: Drive, w: Drive, e: RowEffect) {
    && (e.Rotate? ==> v.Free? && w == Claimed(e.op, s.nextToken))
    && (e.Write? && MayWrite(w) ==> !Finishing(e.state))
    && (!e.Rotate? ==> w == v || !Engaged(w) || Continues(s, v, w))
  }

  /** The drive moves on along its row with the same token, or turns to mirroring a terminal parent. */
  ghost predicate Continues(s: System, v: Drive, w: Drive) {
    && Engaged(v) && !v.Mirroring? && Engaged(w) && w.op == v.op && (MayWrite(w) ==> MayWrite(v))
    && (TokenOf(w) == TokenOf(v) || Unguarded(w))
    && !w.Claimed? && (w.Driving? || w.Mirroring? ==> v.Claimed?) && (w.Deriving? ==> v.Driving?)
    && (Unguarded(w) ==> |s.ops| == 1)
    && (w.Mirroring? ==> Terminal(w.parent.state) && (Unguarded(w) || w.lease == ByOp(w.op, TokenOf(w))))
  }

  predicate Finishing(st: State) {
    st == Completed || st == Failed
  }

  /** One step, as far as rows and drives are concerned: d acts (or nobody, when d is -1) with row effect e. */
  ghost predicate Moves(s: System, t: System, d: int, e: RowEffect) {
    && t.nextToken == s.nextToken + 1
    && t.ops == RowsAfter(s.ops, e, s.nextToken)
    && |t.drivers| == |s.drivers| && -1 <= d < |s.drivers|
    && (forall k | 0 <= k < |s.drivers| && k != d :: t.drivers[k] == s.drivers[k])
    && EffectOk(s, d, e)
    && (d != -1 ==> ActorOk(s, s.drivers[d].drive, t.drivers[d].drive, e))
  }

  function Actor(step: Step): int {
    if ByDriver(step) then step.d else -1
  }

  lemma ClaimEffect(s: System, step: Step)
    requires Enabled(s, step) && (step.ClaimOperation? || step.ClaimCutover?)
    ensures EffectOk(s, step.d, RowEffectOf(s, step))
    ensures ActorOk(s, s.drivers[step.d].drive, DriveAfter(s, step), RowEffectOf(s, step))
  {
  }

  lemma MirrorEffect(s: System, step: Step)
    requires Enabled(s, step) && step.Mirror? && DriveOk(s, s.drivers[step.d].drive)
    ensures EffectOk(s, step.d, RowEffectOf(s, step)) && !RowEffectOf(s, step).Rotate?
    ensures DriveAfter(s, step) == Free
  {
  }

  predicate WritesRow(step: Step) {
    step.DriveRow? || step.SettleFromTasks? || step.SettleReported? || step.SettleTaskless?
  }

  lemma WriteEffect(s: System, step: Step)
    requires Enabled(s, step) && WritesRow(step)
    ensures EffectOk(s, step.d, RowEffectOf(s, step)) && !RowEffectOf(s, step).Rotate?
  {
  }

  lemma WriterAfter(s: System, step: Step)
    requires Enabled(s, step) && WritesRow(step)
    ensures ActorOk(s, s.drivers[step.d].drive, DriveAfter(s, step), RowEffectOf(s, step))
  {
  }

  lemma LoadEffect(s: System, step: Step)
    requires Enabled(s, step) && (step.LoadParent? || step.LoadUnclaimable?)
    ensures RowEffectOf(s, step) == NoRow
    ensures DriveAfter(s, step) == Free || Continues(s, s.drivers[step.d].drive, DriveAfter(s, step))
  {
  }

  lemma OtherEffect(s: System, step: Step)
    requires Enabled(s, step) && ByDriver(step) && !step.ClaimOperation? && !step.ClaimCutover?
    requires !step.Mirror? && !WritesRow(step) && !step.LoadParent? && !step.LoadUnclaimable?
    ensures !RowEffectOf(s, step).Rotate? && !RowEffectOf(s, step).Write?
    ensures ActorOk(s, s.drivers[step.d].drive, DriveAfter(s, step), RowEffectOf(s, step))
  {
  }

  lemma ActorEffect(s: System, step: Step)
    requires Enabled(s, step) && ByDriver(step) && DriveOk(s, s.drivers[step.d].drive)
    ensures EffectOk(s, step.d, RowEffectOf(s, step))
    ensures ActorOk(s, s.drivers[step.d].drive, DriveAfter(s, step), RowEffectOf(s, step))
  {
    if step.ClaimOperation? || step.ClaimCutover? {
      ClaimEffect(s, step);
    } else if step.Mirror? {
      MirrorEffect(s, step);
    } else if WritesRow(step) {
      WriteEffect(s, step);
      WriterAfter(s, step);
    } else if step.LoadParent? || step.LoadUnclaimable? {
      LoadEffect(s, step);
    } else {
      OtherEffect(s, step);
    }
  }

  /** Everything a step leaves alone. */
  lemma StepFrame(s: System, step: Step)
    requires Enabled(s, step)
    ensures var t := Perform(s, step);
            && t.nextToken == s.nextToken + 1 && t.ops == RowsAfter(s.ops, RowEffectOf(s, step), s.nextToken)
            && (forall k | 0 <= k < |s.drivers| && k != Actor(step) :: t.drivers[k] == s.drivers[k])
            && (ByDriver(step) ==> t.drivers[step.d].drive == DriveAfter(s, step))
  {
  }

  lemma StepMoves(s: System, step: Step)
    requires Enabled(s, step) && Leases(s)
    ensures Moves(s, Perform(s, step), Actor(step), RowEffectOf(s, step))
  {
    StepFrame(s, step);
    if ByDriver(step) {
      assert DriveOk(s, s.drivers[step.d].drive);
      ActorEffect(s, step);
      MovesOf(s, Perform(s, step), step.d, RowEffectOf(s, step), DriveAfter(s, step));
    }
  }

  lemma MovesOf(s: System, t: System, d: nat, e: RowEffect, w: Drive)
    requires d < |s.drivers| == |t.drivers| && t.drivers[d].drive == w
    requires t.nextToken == s.nextToken + 1 && t.ops == RowsAfter(s.ops, e, s.nextToken)
    requires forall k | 0 <= k < |s.drivers| && k != d :: t.drivers[k] == s.drivers[k]
    requires EffectOk(s, d, e) && ActorOk(s, s.drivers[d].drive, w, e)
    ensures Moves(s, t, d, e)
  {
  }

  // ---------------------------------------------------------------- one row, one effect

  /** Columns fixed when the row was created. */
  predicate SamePlan(a: OpRow, b: OpRow) {
    && b.deployment == a.deployment && b.key == a.key && b.kind == a.kind
    && b.cutover == a.cutover && b.onFailure == a.onFailure
  }

  lemma RotationStates(s: System, i: nat, st: State)
    requires Rotates(s, i, st)
    ensures st != Pending && !Finishing(st) && !Finishing(s.ops[i].state)
  {
  }

  /** What a move does to one row. */
  lemma RowMove(s: System, t: System, d: int, e: RowEffect, i: nat)
    requires Moves(s, t, d, e) && i < |s.ops|
    ensures SamePlan(s.ops[i], t.ops[i])
    ensures t.ops[i].token == if e.Rotate? && e.op == i then s.nextToken else s.ops[i].token
    ensures (e.Rotate? || e.Write?) && e.op == i ==> t.ops[i].state == e.state
    ensures e.Write? && e.op == i ==> t.ops[i] == WithState(s.ops[i], e.state, e.error)
    ensures t.ops[i] != s.ops[i] ==>
              || ((e.Rotate? || e.Write?) && e.op == i)
              || (e.StopAll? && s.ops[i].state == Pending && t.ops[i] == s.ops[i].(state := Stopped))
              || (e.ExpireAll? && s.ops[i].state == FailedRetryable && t.ops[i] == s.ops[i].(state := Failed))
    ensures t.ops[i].state == Pending ==> t.ops[i] == s.ops[i]
  {
    if e.Rotate? {
      RotationStates(s, e.op, e.state);
    }
  }

  // ---------------------------------------------------------------- leases are exclusive

  lemma RowsMove(s: System, t: System, d: int, e: RowEffect)
    requires Moves(s, t, d, e) && Leases(s)
    ensures forall i | 0 <= i < |t.ops| :: RowOk(t, t.ops[i])
  {
    forall i | 0 <= i < |t.ops| ensures RowOk(t, t.ops[i]) {
      RowMove(s, t, d, e, i);
      assert RowOk(s, s.ops[i]);
    }
  }

  lemma DriveMove(s: System, t: System, d: int, e: RowEffect, k: nat)
    requires Moves(s, t, d, e) && Leases(s) && k < |s.drivers|
    ensures DriveOk(t, t.drivers[k].drive)
    ensures TokenOf(t.drivers[k].drive) == 0 || TokenOf(t.drivers[k].drive) == TokenOf(s.drivers[k].drive)
            || (k == d && TokenOf(t.drivers[k].drive) == s.nextToken)
  {
    var v, w := s.drivers[k].drive, t.drivers[k].drive;
    assert DriveOk(s, v);
    if Engaged(w) {
      RowMove(s, t, d, e, w.op);
    }
  }

  lemma LeasesStep(s: System, step: Step)
    requires Enabled(s, step) && Leases(s)
    ensures Leases(Perform(s, step))
  {
    StepMoves(s, step);
    LeasesMove(s, Perform(s, step), Actor(step), RowEffectOf(s, step));
  }

  lemma LeasesMove(s: System, t: System, d: int, e: RowEffect)
    requires Moves(s, t, d, e) && Leases(s)
    ensures Leases(t)
  {
    RowsMove(s, t, d, e);
    forall k | 0 <= k < |t.drivers|
      ensures DriveOk(t, t.drivers[k].drive) && TokenOf(s.drivers[k].drive) < s.nextToken
      ensures TokenOf(t.drivers[k].drive) == 0 || TokenOf(t.drivers[k].drive) == TokenOf(s.drivers[k].drive)
              || (k == d && TokenOf(t.drivers[k].drive) == s.nextToken)
    {
      DriveMove(s, t, d, e, k);
      assert DriveOk(s, s.drivers[k].drive);
    }
  }

  lemma {:induction false} LeasesInv(s: System, steps: seq<Step>)
    requires ValidRun(s, steps) && Leases(s)
    ensures Leases(Execute(s, steps))
    decreases |steps|
  {
    if steps != [] {
      LeasesStep(s, steps[0]);
      LeasesInv(Perform(s, steps[0]), steps[1..]);
    }
  }

  lemma InitialLeases(s: System)
    requires Initial(s)
    ensures Leases(s)
  {
  }

  /** Driver d may write row i and carries the row's current token. */
  ghost predicate Holds(s: System, d: int, i: nat) {
    && 0 <= d < |s.drivers| && i < |s.ops|
    && var v := s.drivers[d].drive;
       MayWrite(v) && v.op == i && TokenOf(v) == s.ops[i].token > 0
  }

  /** At most one driver at a time can write a row, whatever stale leases the others still believe in. */
  lemma OneHolder(s: System, d: int, e: int, i: nat)
    requires Leases(s) && Holds(s, d, i) && Holds(s, e, i)
    ensures d == e
  {
  }

  // ---------------------------------------------------------------- who may change a row

  ghost predicate SoleHolder(s: System, d: int, i: nat) {
    Holds(s, d, i) && forall e :: Holds(s, e, i) ==> e == d
  }

  /** The grounds on which a step may take row i of s to row i of t. */
  ghost predicate Authorized(s: System, step: Step, t: System, i: nat)
    requires i < |s.ops| == |t.ops| && (ByDriver(step) ==> step.d < |s.drivers|)
  {
    // a claim that leaves the claimant holding the row
    || (Holds(t, Actor(step), i) && t.ops[i].token == s.nextToken)
    // the row's one current holder
    || SoleHolder(s, Actor(step), i)
    // a stop sweeps rows that never started
    || (step.StopPendingRows? && s.ops[i].state == Pending && t.ops[i] == s.ops[i].(state := Stopped))
    // a lone row follows a parent that was read terminal
    || (step.Mirror? && |s.ops| == 1 && s.drivers[step.d].drive.Mirroring? && Terminal(t.ops[i].state)
        && t.ops[i].state == s.drivers[step.d].drive.parent.state)
    // retries that ran out are failed together with their parent
    || (step.Expire? && s.ops[i].state == FailedRetryable && t.ops[i].state == Failed == t.apply.state)
  }

  lemma UnguardedWrites(s: System, step: Step)
    requires Enabled(s, step) && RowEffectOf(s, step).Write? && ByDriver(step) && Unguarded(s.drivers[step.d].drive)
    ensures step.Mirror? && RowEffectOf(s, step).state == s.drivers[step.d].drive.parent.state
  {
  }

  lemma WriteAuthority(s: System, d: int, i: nat)
    requires Leases(s) && Writes(s, d, i)
    ensures || Holds(s, d, i)
            || (Unguarded(s.drivers[d].drive) && |s.ops| == 1 && Terminal(s.drivers[d].drive.parent.state))
  {
    assert DriveOk(s, s.drivers[d].drive);
  }

  /** The same grounds, read off the effect of a move. */
  ghost predicate MovedBy(s: System, t: System, d: int, e: RowEffect, i: nat)
    requires Moves(s, t, d, e) && i < |s.ops|
  {
    || (Holds(t, d, i) && t.ops[i].token == s.nextToken)
    || SoleHolder(s, d, i)
    || (e.Write? && d != -1 && Unguarded(s.drivers[d].drive) && |s.ops| == 1 && t.ops[i].state == e.state
        && Terminal(s.drivers[d].drive.parent.state))
    || (e.StopAll? && s.ops[i].state == Pending && t.ops[i] == s.ops[i].(state := Stopped))
    || (e.ExpireAll? && s.ops[i].state == FailedRetryable && t.ops[i].state == Failed)
  }

  lemma MoveAuthority(s: System, t: System, d: int, e: RowEffect, i: nat)
    requires Moves(s, t, d, e) && Leases(s) && i < |s.ops| && t.ops[i] != s.ops[i]
    ensures MovedBy(s, t, d, e, i)
  {
    RowMove(s, t, d, e, i);
    if e.Write? {
      WriteAuthority(s, d, i);
      if Holds(s, d, i) {
        forall f | Holds(s, f, i) ensures f == d {
          OneHolder(s, f, d, i);
        }
      }
    }
  }

  /** Which steps have the effects that need no lease. */
  ghost predicate EffectOf(s: System, step: Step, t: System, e: RowEffect)
    requires ByDriver(step) ==> step.d < |s.drivers|
  {
    && (e.StopAll? ==> step.StopPendingRows?)
    && (e.ExpireAll? ==> step.Expire? && t.apply.state == Failed)
    && (e.Write? && ByDriver(step) && Unguarded(s.drivers[step.d].drive) ==>
          step.Mirror? && e.state == s.drivers[step.d].drive.parent.state)
  }

  lemma AuthorityOf(s: System, step: Step, t: System, e: RowEffect, i: nat)
    requires (ByDriver(step) ==> step.d < |s.drivers|) && Moves(s, t, Actor(step), e) && i < |s.ops|
    requires MovedBy(s, t, Actor(step), e, i) && EffectOf(s, step, t, e)
    ensures Authorized(s, step, t, i)
  {
  }

  lemma EffectSteps(s: System, step: Step)
    requires Enabled(s, step)
    ensures EffectOf(s, step, Perform(s, step), RowEffectOf(s, step))
  {
    if RowEffectOf(s, step).Write? && ByDriver(step) && Unguarded(s.drivers[step.d].drive) {
      UnguardedWrites(s, step);
    }
  }

  lemma RowChangeAuthorized(s: System, step: Step, i: nat)
    requires Enabled(s, step) && Leases(s) && i < |s.ops|
    requires Perform(s, step).ops[i] != s.ops[i]
    ensures Authorized(s, step, Perform(s, step), i)
  {
    StepMoves(s, step);
    MoveAuthority(s, Perform(s, step), Actor(step), RowEffectOf(s, step), i);
    EffectSteps(s, step);
    AuthorityOf(s, step, Perform(s, step), RowEffectOf(s, step), i);
  }

  /** In every run from a fresh apply, every change of every operation row is authorized. */
  lemma EveryRowChangeAuthorized(s: System, steps: seq<Step>, step: Step, i: nat)
    requires Initial(s) && ValidRun(s, steps)
    requires Enabled(Execute(s, steps), step) && i < |s.ops|
    requires Perform(Execute(s, steps), step).ops[i] != Execute(s, steps).ops[i]
    ensures Authorized(Execute(s, steps), step, Perform(Execute(s, steps), step), i)
  {
    InitialLeases(s);
    LeasesInv(s, steps);
    RowChangeAuthorized(Execute(s, steps), step, i);
  }

  /** A claimed row nobody gave tasks is failed with the reason, and nothing else is. */
  lemma TasklessFails(s: System, d: nat)
    requires Enabled(s, SettleTaskless(d)) && s.drivers[d].drive.op < |s.ops|
    ensures var i, t := s.drivers[d].drive.op, Perform(s, SettleTaskless(d));
            && s.tasks[i] == []
            && t.ops == if s.ops[i].token == s.drivers[d].drive.token > 0
                        then s.ops[i := s.ops[i].(state := Failed,
                                                  error := "operation has no tasks; invalid or stale claim")]
                        else s.ops
  {
  }

  // ---------------------------------------------------------------- finished rows

  /** The drive holds row i and can still write it something other than what it holds. */
  ghost predicate Threatens(v: Drive, row: OpRow, i: nat) {
    && MayWrite(v) && v.op == i && TokenOf(v) == row.token
    && (v.Deriving? ==> Persistable(v.derived) && WithState(row, v.derived, v.message) != row)
    && (v.Mirroring? ==> WithState(row, v.parent.state, v.parent.error) != row)
  }

  ghost predicate Threatened(s: System, i: nat)
    requires i < |s.ops|
  {
    exists d | 0 <= d < |s.drivers| :: Threatens(s.drivers[d].drive, s.ops[i], i)
  }

  /** No row in this state can be written anything else. */
  ghost predicate Settled(s: System, st: State) {
    forall i | 0 <= i < |s.ops| && s.ops[i].state == st :: !Threatened(s, i)
  }

  /** A finished row nobody threatens does not change in a move of a multi-operation apply. */
  lemma SettledRowKept(s: System, t: System, d: int, e: RowEffect, i: nat)
    requires Moves(s, t, d, e) && Leases(s) && |s.ops| > 1 && i < |s.ops|
    requires Finishing(s.ops[i].state) && !Threatened(s, i)
    ensures t.ops[i] == s.ops[i]
  {
    RowMove(s, t, d, e, i);
    if e.Rotate? {
      RotationStates(s, e.op, e.state);
    }
    if e.Write? && e.op == i {
      WriteAuthority(s, d, i);
      assert !Threatens(s.drivers[d].drive, s.ops[i], i);
    }
  }

  /** And nobody starts to threaten it. */
  lemma SettledDriveMove(s: System, t: System, d: int, e: RowEffect, i: nat, k: nat)
    requires Moves(s, t, d, e) && Leases(s) && |s.ops| > 1 && i < |s.ops| && k < |s.drivers|
    requires Finishing(s.ops[i].state) && t.ops[i] == s.ops[i] && !Threatens(s.drivers[k].drive, s.ops[i], i)
    ensures !Threatens(t.drivers[k].drive, t.ops[i], i)
  {
    assert DriveOk(s, s.drivers[k].drive) && RowOk(s, s.ops[i]);
    if e.Rotate? {
      RotationStates(s, e.op, e.state);
    }
  }

  lemma SettledRowMove(s: System, t: System, d: int, e: RowEffect, i: nat)
    requires Moves(s, t, d, e) && Leases(s) && |s.ops| > 1 && i < |s.ops|
    requires Finishing(s.ops[i].state) && !Threatened(s, i)
    ensures t.ops[i] == s.ops[i] && !Threatened(t, i)
  {
    SettledRowKept(s, t, d, e, i);
    forall k | 0 <= k < |t.drivers| ensures !Threatens(t.drivers[k].drive, t.ops[i], i) {
      SettledDriveMove(s, t, d, e, i, k);
    }
  }

  /** A row finished by its own holder is threatened by nobody. */
  lemma FreshlyFinished(s: System, t: System, d: int, e: RowEffect, i: nat)
    requires Moves(s, t, d, e) && Leases(s) && |s.ops| > 1 && i < |s.ops|
    requires e.Write? && e.op == i && Finishing(e.state)
    ensures !Threatened(t, i)
  {
    RowMove(s, t, d, e, i);
    WriteAuthority(s, d, i);
    forall k | 0 <= k < |t.drivers| ensures !Threatens(t.drivers[k].drive, t.ops[i], i) {
      if k != d {
        assert TokenOf(s.drivers[k].drive) != TokenOf(s.drivers[d].drive);
      }
    }
  }

  lemma SettledMove(s: System, t: System, d: int, e: RowEffect, i: nat, st: State)
    requires Moves(s, t, d, e) && Leases(s) && |s.ops| > 1 && i < |s.ops| && t.ops[i].state == st
    requires Finishing(st) && Settled(s, st)
    requires e.ExpireAll? && s.ops[i].state == FailedRetryable ==> !Threatened(t, i)
    ensures !Threatened(t, i)
  {
    RowMove(s, t, d, e, i);
    if s.ops[i].state == st {
      SettledRowMove(s, t, d, e, i);
    } else if e.Rotate? {
      RotationStates(s, e.op, e.state);
    } else if e.Write? {
      FreshlyFinished(s, t, d, e, i);
    }
  }

  /** The expiry leaves no row that its driver can still write something else. */
  ghost predicate QuietExpiry(s: System, step: Step)
    requires Enabled(s, step)
  {
    step.Expire? ==>
      forall i | 0 <= i < |s.ops| && s.ops[i].state == FailedRetryable :: !Threatened(Perform(s, step), i)
  }

  lemma SettledStep(s: System, step: Step, st: State)
    requires Enabled(s, step) && Leases(s) && |s.ops| > 1
    requires Finishing(st) && Settled(s, st) && (st == Failed ==> QuietExpiry(s, step))
    ensures Settled(Perform(s, step), st)
  {
    var t, d, e := Perform(s, step), Actor(step), RowEffectOf(s, step);
    StepMoves(s, step);
    forall i | 0 <= i < |t.ops| && t.ops[i].state == st ensures !Threatened(t, i) {
      RowMove(s, t, d, e, i);
      SettledMove(s, t, d, e, i, st);
    }
  }

  /** Every retry expiry of the run is quiet. */
  ghost predicate QuietRun(s: System, steps: seq<Step>)
    requires ValidRun(s, steps)
    decreases |steps|
  {
    steps == [] || (QuietExpiry(s, steps[0]) && QuietRun(Perform(s, steps[0]), steps[1..]))
  }

  lemma SettledRowStep(s: System, step: Step, i: nat)
    requires Enabled(s, step) && Leases(s) && |s.ops| > 1 && i < |s.ops|
    requires Finishing(s.ops[i].state) && !Threatened(s, i)
    ensures Perform(s, step).ops[i] == s.ops[i] && !Threatened(Perform(s, step), i)
  {
    StepMoves(s, step);
    SettledRowMove(s, Perform(s, step), Actor(step), RowEffectOf(s, step), i);
  }

  /** A finished row nobody threatens is final over every continuation. */
  lemma {:induction false} SettledRowsAreFinal(s: System, steps: seq<Step>, i: nat)
    requires ValidRun(s, steps) && Leases(s) && |s.ops| > 1 && i < |s.ops|
    requires Finishing(s.ops[i].state) && !Threatened(s, i)
    ensures Execute(s, steps).ops[i] == s.ops[i]
    decreases |steps|
  {
    if steps != [] {
      SettledRowStep(s, steps[0], i);
      LeasesStep(s, steps[0]);
      SettledRowsAreFinal(Perform(s, steps[0]), steps[1..], i);
    }
  }

  lemma {:induction false} SettledInv(s: System, steps: seq<Step>, st: State)
    requires ValidRun(s, steps) && Leases(s) && Settled(s, st) && |s.ops| > 1
    requires st == Completed || (st == Failed && QuietRun(s, steps))
    ensures Settled(Execute(s, steps), st)
    decreases |steps|
  {
    if steps != [] {
      LeasesStep(s, steps[0]);
      SettledStep(s, steps[0], st);
      SettledInv(Perform(s, steps[0]), steps[1..], st);
    }
  }

  /**
   From a fresh multi-operation apply: a completed row never changes again, and neither does a row
   that failed in a run whose expiries are quiet, whatever happens afterwards.
   */
  lemma FinishedRowsAreFinal(s: System, before: seq<Step>, rest: seq<Step>, i: nat)
    requires Initial(s) && |s.ops| > 1 && ValidRun(s, before) && ValidRun(Execute(s, before), rest) && i < |s.ops|
    requires Execute(s, before).ops[i].state == Completed
             || (Execute(s, before).ops[i].state == Failed && QuietRun(s, before))
    ensures Execute(Execute(s, before), rest).ops[i] == Execute(s, before).ops[i]
  {
    InitialLeases(s);
    LeasesInv(s, before);
    SettledInv(s, before, Execute(s, before).ops[i].state);
    SettledRowsAreFinal(Execute(s, before), rest, i);
  }

  // ---------------------------------------------------------------- exactly when a finished row is final

  /** A driver claimed the row and has yet to load a parent whose mirror would leave the row as it is. */
  ghost predicate Undecided(s: System, i: nat)
    requires i < |s.ops|
  {
    && Terminal(s.apply.state) && WithState(s.ops[i], s.apply.state, s.apply.error) == s.ops[i]
    && exists d | 0 <= d < |s.drivers| :: s.drivers[d].drive == Claimed(i, s.ops[i].token)
  }

  lemma One(s: System, step: Step)
    requires Enabled(s, step)
    ensures ValidRun(s, [step]) && Execute(s, [step]) == Perform(s, step)
  {
    assert [step][1..] == [];
    assert ValidRun(Perform(s, step), []) && Execute(Perform(s, step), []) == Perform(s, step);
  }

  lemma Then(s: System, step: Step, rest: seq<Step>)
    requires Enabled(s, step) && ValidRun(Perform(s, step), rest)
    ensures ValidRun(s, [step] + rest) && Execute(s, [step] + rest) == Execute(Perform(s, step), rest)
  {
    assert ([step] + rest)[1..] == rest;
  }

  /** A driving holder can stop the row. */
  lemma DrivingRewrites(s: System, d: nat, i: nat)
    requires Leases(s) && i < |s.ops| && Finishing(s.ops[i].state) && d < |s.drivers|
    requires s.drivers[d].drive.Driving? && Threatens(s.drivers[d].drive, s.ops[i], i)
    ensures Enabled(s, DriveRow(d, Stopped)) && Perform(s, DriveRow(d, Stopped)).ops[i] != s.ops[i]
  {
    assert DriveOk(s, s.drivers[d].drive);
  }

  lemma DerivingRewrites(s: System, d: nat, i: nat)
    requires Leases(s) && i < |s.ops| && d < |s.drivers|
    requires s.drivers[d].drive.Deriving? && Threatens(s.drivers[d].drive, s.ops[i], i)
    ensures Enabled(s, SettleFromTasks(d)) && Perform(s, SettleFromTasks(d)).ops[i] != s.ops[i]
  {
    assert DriveOk(s, s.drivers[d].drive);
  }

  lemma MirroringRewrites(s: System, d: nat, i: nat)
    requires Leases(s) && |s.ops| > 1 && i < |s.ops| && d < |s.drivers|
    requires s.drivers[d].drive.Mirroring? && Threatens(s.drivers[d].drive, s.ops[i], i)
    ensures Enabled(s, Mirror(d)) && Perform(s, Mirror(d)).ops[i] != s.ops[i]
  {
    assert DriveOk(s, s.drivers[d].drive);
  }

  lemma ClaimedLoads(s: System, d: nat, i: nat)
    requires i < |s.ops| && d < |s.drivers| && s.drivers[d].drive == Claimed(i, s.ops[i].token)
    ensures Enabled(s, LoadParent(d))
    ensures var t := Perform(s, LoadParent(d));
            && t.ops == s.ops && d < |t.drivers|
            && t.drivers[d].drive == if Terminal(s.apply.state)
                                     then Mirroring(i, ByOp(i, s.ops[i].token), s.apply)
                                     else Driving(i, s.ops[i].token, None)
  {
  }

  /** A threat can be carried out within two steps. */
  lemma ThreatIsCarriedOut(s: System, d: nat, i: nat) returns (steps: seq<Step>)
    requires Leases(s) && |s.ops| > 1 && i < |s.ops| && Finishing(s.ops[i].state) && !Undecided(s, i)
    requires d < |s.drivers| && Threatens(s.drivers[d].drive, s.ops[i], i)
    ensures ValidRun(s, steps) && Execute(s, steps).ops[i] != s.ops[i]
  {
    var v := s.drivers[d].drive;
    if v.Driving? {
      DrivingRewrites(s, d, i);
      steps := [DriveRow(d, Stopped)];
      One(s, steps[0]);
    } else if v.Deriving? {
      DerivingRewrites(s, d, i);
      steps := [SettleFromTasks(d)];
      One(s, steps[0]);
    } else if v.Mirroring? {
      MirroringRewrites(s, d, i);
      steps := [Mirror(d)];
      One(s, steps[0]);
    } else {
      var rest := AfterLoading(s, d, i);
      Then(s, LoadParent(d), rest);
      steps := [LoadParent(d)] + rest;
    }
  }

  lemma AfterLoading(s: System, d: nat, i: nat) returns (rest: seq<Step>)
    requires Leases(s) && |s.ops| > 1 && i < |s.ops| && Finishing(s.ops[i].state) && !Undecided(s, i)
    requires d < |s.drivers| && s.drivers[d].drive == Claimed(i, s.ops[i].token)
    ensures Enabled(s, LoadParent(d)) && ValidRun(Perform(s, LoadParent(d)), rest)
    ensures Execute(Perform(s, LoadParent(d)), rest).ops[i] != s.ops[i]
  {
    ClaimedLoads(s, d, i);
    var t := Perform(s, LoadParent(d));
    LeasesStep(s, LoadParent(d));
    if t.drivers[d].drive.Driving? {
      DrivingRewrites(t, d, i);
      rest := [DriveRow(d, Stopped)];
    } else {
      MirroringRewrites(t, d, i);
      rest := [Mirror(d)];
    }
    One(t, rest[0]);
  }

  /**
   A finished row keeps its values over every continuation exactly when no drive can still write it something else.
   */
  lemma FinalIff(s: System, i: nat)
    requires Leases(s) && |s.ops| > 1 && i < |s.ops| && Finishing(s.ops[i].state) && !Undecided(s, i)
    ensures (forall steps | ValidRun(s, steps) :: Execute(s, steps).ops[i] == s.ops[i]) <==> !Threatened(s, i)
  {
    if Threatened(s, i) {
      var d :| 0 <= d < |s.drivers| && Threatens(s.drivers[d].drive, s.ops[i], i);
      var steps := ThreatIsCarriedOut(s, d, i);
    } else {
      forall steps | ValidRun(s, steps) ensures Execute(s, steps).ops[i] == s.ops[i] {
        SettledRowsAreFinal(s, steps, i);
      }
    }
  }
}
