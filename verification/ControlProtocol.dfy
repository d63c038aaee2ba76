/**
 The control handlers and the rollout protocol act on one store. Every handler call is a short run of protocol steps, so
 every interleaving of handler calls with driver steps is a run of the protocol and keeps all its guarantees.
 */
module ControlProtocol {
  import opened ApplyStates
  import opened ApplyRows
  import opened RolloutProtocol
  import CR = ControlRequests
  import RolloutRows
  import opened RolloutSteps

  /** The states of all tasks of the apply, row by row. */
  function AllStates(tasks: seq<seq<Task>>): seq<State> {
    if tasks == [] then [] else TaskStates(tasks[0]) + AllStates(tasks[1..])
  }

  lemma {:induction false} SomeState(tasks: seq<seq<Task>>)
    ensures AllStates(tasks) != [] <==> HasTasks(tasks)
  {
    if tasks != [] {
      SomeState(tasks[1..]);
      assert forall i | 0 < i < |tasks| :: tasks[i] == tasks[1..][i - 1];
      if HasTasks(tasks[1..]) {
        var i :| 0 <= i < |tasks[1..]| && tasks[1..][i] != [];
        assert tasks[i + 1] != [];
      }
    }
  }

  lemma {:induction false} StoppedState(tasks: seq<seq<Task>>)
    ensures Stopped in AllStates(tasks) ==> HasStoppedTask(tasks)
  {
    if tasks != [] && Stopped in AllStates(tasks) {
      if Stopped in TaskStates(tasks[0]) {
        var k :| 0 <= k < |TaskStates(tasks[0])| && TaskStates(tasks[0])[k] == Stopped;
        assert tasks[0][k].state == Stopped;
      } else {
        StoppedState(tasks[1..]);
        var i, k :| 0 <= i < |tasks[1..]| && 0 <= k < |tasks[1..][i]| && tasks[1..][i][k].state == Stopped;
        assert tasks[i + 1][k].state == Stopped;
      }
    }
  }

  /** The handlers see the protocol's store. */
  ghost predicate Sees(c: CR.Control, s: System) {
    c.state == s.apply.state && c.tasks == AllStates(s.tasks) && c.stop.Some? == s.stop && c.start.Some? == s.start
  }

  // ---------------------------------------------------------------- one call

  /** A stop request, or nothing when it was refused or is a repeat. */
  function StopSteps(c: CR.Control): seq<Step> {
    var (q, reply) := CR.QueuedStop(c);
    if reply.Accepted? && reply.status == CR.Fresh then [RequestStop] else []
  }

  lemma StopIsProtocol(c: CR.Control, s: System)
    requires Sees(c, s)
    ensures ValidRun(s, StopSteps(c)) && Sees(CR.QueuedStop(c).0, Execute(s, StopSteps(c)))
  {
    SomeState(s.tasks);
    if StopSteps(c) != [] {
      RolloutRows.One(s, RequestStop);
    }
  }

  /** Closing a stop that took effect, or that the remote reports stopped. */
  function ResolveSteps(c: CR.Control, f: CR.Profile, check: CR.Progress, now: nat): seq<Step> {
    if c.stop.None? then []
    else if CR.StopResolved(c.state) then [CloseStop]
    else if f.remote && f.external && check.Progress? && check.state == Stopped then [SyncStopped(now)]
    else []
  }

  lemma CloseIsProtocol(c: CR.Control, s: System)
    requires Sees(c, s) && c.stop.Some? && CR.StopResolved(c.state)
    ensures Enabled(s, CloseStop) && Sees(c.(stop := None), Perform(s, CloseStop))
  {
  }

  lemma SyncIsProtocol(c: CR.Control, s: System, now: nat)
    requires Sees(c, s) && c.stop.Some? && CR.StartAllowed(c.state) && !CR.StopResolved(c.state)
    ensures Enabled(s, SyncStopped(now)) && Sees(c.(state := Stopped, stop := None), Perform(s, SyncStopped(now)))
  {
  }

  lemma ResolveIsProtocol(c: CR.Control, f: CR.Profile, check: CR.Progress, now: nat, s: System)
    requires Sees(c, s) && CR.StartAllowed(c.state) && CR.Resolve(c, f, check).Some?
    ensures ValidRun(s, ResolveSteps(c, f, check, now))
    ensures Sees(CR.Resolve(c, f, check).value, Execute(s, ResolveSteps(c, f, check, now)))
  {
    var steps := ResolveSteps(c, f, check, now);
    if steps == [CloseStop] {
      CloseIsProtocol(c, s);
      RolloutRows.One(s, CloseStop);
    } else if steps == [SyncStopped(now)] {
      SyncIsProtocol(c, s, now);
      RolloutRows.One(s, SyncStopped(now));
    }
  }

  function QueueSteps(c: CR.Control, t: CR.Control, f: CR.Profile): seq<Step> {
    if c.start.None? && t.start.Some? then [RequestStart(f.remote && f.external)] else []
  }

  /** A resolved store and the fresh start it accepts: the request is enabled and leaves what the handler left. */
  lemma QueueIsProtocol(r: CR.Control, t: CR.Control, f: CR.Profile, s: System)
    requires Sees(r, s) && r.stop.None? && r.start.None? && t.start.Some? && t == r.(start := t.start, state := t.state)
    requires || (r.state == WaitingForDeploy == t.state)
             || (CR.MayHaveStoppedTasks(r.state) && t.state == Stopped
                 && ((f.remote && f.external) || Stopped in r.tasks))
    ensures var step := RequestStart(f.remote && f.external); Enabled(s, step) && Sees(t, Perform(s, step))
  {
    StoppedState(s.tasks);
  }

  /** The start call gets as far as recording a request. */
  predicate Proceeds(c: CR.Control, f: CR.Profile, check: CR.Progress) {
    && CR.StartAllowed(c.state) && !(f.deferDeploy && c.state != WaitingForDeploy)
    && CR.Resolve(c, f, check).Some?
  }

  /** The steps of a start call: a pending stop is resolved first, then the request is recorded. */
  function StartSteps(c: CR.Control, f: CR.Profile, check: CR.Progress, probe: CR.Progress, now: nat): seq<Step> {
    if !Proceeds(c, f, check) then []
    else ResolveSteps(c, f, check, now) + QueueSteps(c, CR.StartOf(c, f, check, probe).0, f)
  }

  /** What a start call leaves of the store it resolved. */
  lemma StartShape(c: CR.Control, f: CR.Profile, check: CR.Progress, probe: CR.Progress)
    requires Proceeds(c, f, check)
    ensures var r, t := CR.Resolve(c, f, check).value, CR.StartOf(c, f, check, probe).0;
            && r.start == c.start && (t == r || (r.start.None? && t.start.Some?))
            && (c.start.None? && t.start.Some? ==>
                  && r.stop.None? && t == r.(start := t.start, state := t.state)
                  && (|| (r.state == WaitingForDeploy == t.state)
                      || (CR.MayHaveStoppedTasks(r.state) && t.state == Stopped
                          && ((f.remote && f.external) || Stopped in r.tasks))))
  {
    var r := CR.Resolve(c, f, check).value;
    CR.CountedIff(r.tasks);
  }

  lemma QueuePartIsProtocol(c: CR.Control, f: CR.Profile, check: CR.Progress, probe: CR.Progress, u: System)
    requires Proceeds(c, f, check)
    requires Sees(CR.Resolve(c, f, check).value, u)
    ensures var t := CR.StartOf(c, f, check, probe).0;
            ValidRun(u, QueueSteps(c, t, f)) && Sees(t, Execute(u, QueueSteps(c, t, f)))
  {
    var r, t := CR.Resolve(c, f, check).value, CR.StartOf(c, f, check, probe).0;
    StartShape(c, f, check, probe);
    if c.start.None? && t.start.Some? {
      QueueIsProtocol(r, t, f, u);
      RolloutRows.One(u, RequestStart(f.remote && f.external));
    }
  }

  lemma StartIsProtocol(c: CR.Control, f: CR.Profile, check: CR.Progress, probe: CR.Progress, now: nat, s: System)
    requires Sees(c, s)
    ensures var steps := StartSteps(c, f, check, probe, now);
            ValidRun(s, steps) && Sees(CR.StartOf(c, f, check, probe).0, Execute(s, steps))
  {
    if Proceeds(c, f, check) {
      ResolveIsProtocol(c, f, check, now, s);
      var first, last := ResolveSteps(c, f, check, now), QueueSteps(c, CR.StartOf(c, f, check, probe).0, f);
      QueuePartIsProtocol(c, f, check, probe, Execute(s, first));
      var u := Execute(s, first);
      AppendTo(s, first, u, last, Execute(u, last));
    }
  }

  // ---------------------------------------------------------------- calls and drivers together

  /** A handler call, or a step of a driver or of the retry expiry. */
  datatype Action =
    | CallStop
    | CallStart(check: CR.Progress, probe: CR.Progress, now: nat)
    | CallCutover(probe: CR.Progress)
    | Drive(step: Step)

  /** What the handlers see after drivers took the store to t; drivers close requests but never open one. */
  function Seen(c: CR.Control, t: System): CR.Control {
    c.(state := t.apply.state, tasks := AllStates(t.tasks),
       stop := if t.stop then c.stop else None, start := if t.start then c.start else None)
  }

  ghost predicate Possible(s: System, a: Action) {
    a.Drive? ==> Enabled(s, a.step) && !a.step.RequestStop? && !ByStart(a.step)
  }

  function Steps(c: CR.Control, f: CR.Profile, a: Action): seq<Step> {
    match a
    case CallStop => StopSteps(c)
    case CallStart(check, probe, now) => StartSteps(c, f, check, probe, now)
    case CallCutover(_) => []
    case Drive(step) => [step]
  }

  ghost function ViewAfter(c: CR.Control, f: CR.Profile, s: System, a: Action): CR.Control
    requires Possible(s, a)
  {
    match a
    case CallStop => CR.QueuedStop(c).0
    case CallStart(check, probe, _) => CR.StartOf(c, f, check, probe).0
    case CallCutover(probe) => CR.CutoverOf(c, f, probe).0
    case Drive(step) => Seen(c, Perform(s, step))
  }

  lemma DriveKeepsRequests(s: System, step: Step)
    requires Enabled(s, step) && !step.RequestStop? && !ByStart(step)
    ensures (Perform(s, step).stop ==> s.stop) && (Perform(s, step).start ==> s.start)
  {
  }

  lemma ActionIsProtocol(c: CR.Control, f: CR.Profile, s: System, a: Action)
    requires Sees(c, s) && Possible(s, a)
    ensures ValidRun(s, Steps(c, f, a)) && Sees(ViewAfter(c, f, s, a), Execute(s, Steps(c, f, a)))
  {
    match a
    case CallStop => StopIsProtocol(c, s);
    case CallStart(check, probe, now) => StartIsProtocol(c, f, check, probe, now, s);
    case CallCutover(probe) =>
      assert Execute(s, []) == s;
    case Drive(step) =>
      RolloutRows.One(s, step);
      DriveKeepsRequests(s, step);
  }

  /** Actions that can happen one after the other, the handlers always seeing the store as it is. */
  ghost predicate Interleaving(c: CR.Control, f: CR.Profile, s: System, actions: seq<Action>)
    requires Sees(c, s)
    decreases |actions|
  {
    actions == [] ||
    (&& Possible(s, actions[0])
     && (ActionIsProtocol(c, f, s, actions[0]);
         Interleaving(ViewAfter(c, f, s, actions[0]), f, Execute(s, Steps(c, f, actions[0])), actions[1..])))
  }

  /** The protocol run an interleaving amounts to. */
  ghost function Flattened(c: CR.Control, f: CR.Profile, s: System, actions: seq<Action>): seq<Step>
    requires Sees(c, s) && Interleaving(c, f, s, actions)
    decreases |actions|
  {
    if actions == [] then []
    else
      ActionIsProtocol(c, f, s, actions[0]);
      Steps(c, f, actions[0])
      + Flattened(ViewAfter(c, f, s, actions[0]), f, Execute(s, Steps(c, f, actions[0])), actions[1..])
  }

  /** Every interleaving of handler calls and driver steps is a run of the protocol. */
  lemma {:induction false} InterleavingsAreRuns(c: CR.Control, f: CR.Profile, s: System, actions: seq<Action>)
    requires Sees(c, s) && Interleaving(c, f, s, actions)
    ensures ValidRun(s, Flattened(c, f, s, actions))
    decreases |actions|
  {
    if actions != [] {
      ActionIsProtocol(c, f, s, actions[0]);
      var c', s' := ViewAfter(c, f, s, actions[0]), Execute(s, Steps(c, f, actions[0]));
      InterleavingsAreRuns(c', f, s', actions[1..]);
      var rest := Flattened(c', f, s', actions[1..]);
      AppendTo(s, Steps(c, f, actions[0]), s', rest, Execute(s', rest));
    }
  }

  /** So no interleaving of handler calls, drivers and expiries changes a finished row that nobody threatens. */
  lemma CallsKeepFinishedRows(c: CR.Control, f: CR.Profile, s: System, actions: seq<Action>, i: nat)
    requires Sees(c, s) && Interleaving(c, f, s, actions) && RolloutRows.Leases(s) && |s.ops| > 1 && i < |s.ops|
    requires RolloutRows.Finishing(s.ops[i].state) && !RolloutRows.Threatened(s, i)
    ensures ValidRun(s, Flattened(c, f, s, actions)) && Execute(s, Flattened(c, f, s, actions)).ops[i] == s.ops[i]
  {
    InterleavingsAreRuns(c, f, s, actions);
    RolloutRows.SettledRowsAreFinal(s, Flattened(c, f, s, actions), i);
  }
}
