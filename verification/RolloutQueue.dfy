/** From a plan's operation groups to the rollout they become: the stored rows, in order, of a freshly queued apply. */
module RolloutQueue {
  import opened ApplyStates
  import opened ApplyRows
  import opened RolloutProtocol
  import opened RolloutOrder
  import opened RolloutProgress
  import F = FanOut

  /** The row and tasks a group is stored as, with the apply's policies captured on the row. */
  function RowOf(g: F.Group, cutover: CutoverPolicy, onFailure: OnFailure): OpRow {
    OpRow(g.deployment, g.key, g.kind, cutover, onFailure, Pending, 0, "")
  }

  function TasksOf(g: F.Group): (ts: seq<Task>)
    ensures |ts| == |g.tasks|
  {
    seq(|g.tasks|, k => Task(Pending, ""))
  }

  function RowsOf(gs: seq<F.Group>, cutover: CutoverPolicy, onFailure: OnFailure): (rows: seq<OpRow>)
    ensures |rows| == |gs| && forall i | 0 <= i < |gs| :: rows[i] == RowOf(gs[i], cutover, onFailure)
  {
    seq(|gs|, i requires 0 <= i < |gs| => RowOf(gs[i], cutover, onFailure))
  }

  /** A freshly queued apply and n idle drivers. */
  function QueuedApply(gs: seq<F.Group>, cutover: CutoverPolicy, onFailure: OnFailure, n: nat): System {
    System(ApplyRow(Pending, 0, 0, None, None, ""), RowsOf(gs, cutover, onFailure),
           seq(|gs|, i requires 0 <= i < |gs| => TasksOf(gs[i])), false, false, false, 1, 0, 0, [], [],
           seq(n, d => Driver(Free, Resting, None)))
  }

  /** What the store accepts: every work group has tasks. */
  ghost predicate Storable(gs: seq<F.Group>) {
    forall i | 0 <= i < |gs| && gs[i].kind == Work :: gs[i].tasks != []
  }

  /** Groups in rollout order become rows whose finalizers follow their work. */
  lemma FinalizersFollow(gs: seq<F.Group>, targets: seq<F.Target>, cutover: CutoverPolicy, onFailure: OnFailure)
    requires F.InRolloutOrder(gs, targets) && F.Addressed(gs, targets)
    ensures FinalizersLast(RowsOf(gs, cutover, onFailure))
  {
    var rows := RowsOf(gs, cutover, onFailure);
    forall f, w | 0 <= f < |rows| && 0 <= w < |rows| && rows[f].kind == Finalizer && IsWorkFor(rows, f, w)
      ensures w < f
    {
      assert F.HasAddress(gs[f], targets);
      var a :| 0 <= a < |targets| && gs[f].deployment == targets[a].deployment && gs[f].target == targets[a].target;
      assert gs[w].deployment == targets[a].deployment && gs[f].kind != gs[w].kind;
    }
  }

  lemma FreshlyQueued(gs: seq<F.Group>, cutover: CutoverPolicy, onFailure: OnFailure, n: nat)
    requires |gs| > 1 && Storable(gs)
    ensures Initial(QueuedApply(gs, cutover, onFailure, n))
  {
  }

  /**
   Every plan that is fanned out over distinct targets, whatever its policies, becomes a freshly queued rollout that can
   be driven to completion.
   */
  lemma EveryPlanCanComplete(gs: seq<F.Group>, targets: seq<F.Target>, cutover: CutoverPolicy, onFailure: OnFailure,
                             n: nat) returns (steps: seq<Step>)
    requires F.InRolloutOrder(gs, targets) && F.Addressed(gs, targets) && |gs| > 1 && Storable(gs) && n > 0
    ensures var s := QueuedApply(gs, cutover, onFailure, n);
            && Initial(s) && ValidRun(s, steps) && Execute(s, steps).apply.state == Completed
            && AllDone(Execute(s, steps).ops)
  {
    FreshlyQueued(gs, cutover, onFailure, n);
    FinalizersFollow(gs, targets, cutover, onFailure);
    steps := CompletionIsReachable(QueuedApply(gs, cutover, onFailure, n));
  }

  /** The groups of either fan-out of a plan with changes meet all of it. */
  lemma PlanIsStorable(gs: seq<F.Group>, plan: F.Plan, changes: seq<F.Change>, targets: seq<F.Target>)
    requires || (F.Whole(gs, plan, changes, targets) && changes != [])
             || forall i | 0 <= i < |gs| :: F.Queued(gs[i], plan, changes, targets)
    ensures Storable(gs) && F.Addressed(gs, targets)
  {
    F.FannedOutIsAddressed(gs, plan, changes, targets);
    forall i | 0 <= i < |gs| && gs[i].kind == Work ensures gs[i].tasks != [] {
      assert (forall k | 0 <= k < |gs| :: F.Queued(gs[k], plan, changes, targets))
             ==> F.Queued(gs[i], plan, changes, targets);
    }
  }
}
