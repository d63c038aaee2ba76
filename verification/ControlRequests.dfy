/**
 Durable control requests: the stop, start and cutover handlers over one stored
 apply and its pending request rows. Each handler call is atomic; the data plane's
 answers are parameters. Only the pending status of a request row is kept, because
 a completed or failed row is reset in place by the next request.
 */
module ControlRequests {
  import opened ApplyStates
  import opened ApplyRows

  /** The metadata stored with a request: rows acted on, rows already finished. */
  datatype Counts = Counts(acted: nat, skipped: nat)

  datatype Control =
    Control(state: State, tasks: seq<State>, stop: Option<Counts>, start: Option<Counts>, cutover: bool)

  /** Facts of the apply and its client that no call changes. */
  datatype Profile = Profile(remote: bool, external: bool, multi: bool, deferDeploy: bool)

  datatype Status = Fresh | AlreadyRequested | AlreadyInProgress

  datatype Reply = Rejected | Accepted(counts: Counts, status: Status)

  datatype Progress = Unreachable | Progress(state: State, tables: seq<State>)

  /**
   The immediate stop attempt: not made or not accepted, or accepted with the stored rows the data plane left behind.
   */
  datatype StopCall = Declined | Stopping(state: State, tasks: seq<State>)

  datatype Readiness = NotReady | Ready | InProgress | InRecovery

  predicate StopResolved(s: State) {
    s == Stopped || s == Cancelled || Terminal(s)
  }

  predicate StartAllowed(s: State) {
    s in {WaitingForDeploy, Pending, Running, RunningDegraded, Stopped}
  }

  predicate MayHaveStoppedTasks(s: State) {
    s == Stopped || RunningFamily(s)
  }

  predicate IsStopped(s: State) {
    s == Stopped
  }

  function Count(ts: seq<State>, p: State -> bool): (n: nat)
    ensures n <= |ts|
  {
    if ts == [] then 0 else Count(ts[..|ts| - 1], p) + if p(ts[|ts| - 1]) then 1 else 0
  }

  // ---------------------------------------------------------------- what each call does

  /** A first stop records every task: the unfinished ones to stop, the finished ones to skip. */
  function StopCounts(ts: seq<State>): (k: Counts)
    ensures k.acted + k.skipped == |ts|
  {
    Counts(|ts| - Count(ts, TerminalTask), Count(ts, TerminalTask))
  }

  function StartCounts(ts: seq<State>): Counts {
    Counts(Count(ts, IsStopped), Count(ts, TerminalTask))
  }

  function QueuedStop(c: Control): (Control, Reply) {
    if c.stop.Some? then (c, Accepted(c.stop.value, AlreadyRequested))
    else if Terminal(c.state) || c.tasks == [] then (c, Rejected)
    else (c.(stop := Some(StopCounts(c.tasks))), Accepted(StopCounts(c.tasks), Fresh))
  }

  function StopOf(c: Control, f: Profile, call: StopCall): (Control, Reply) {
    var (q, reply) := QueuedStop(c);
    if !reply.Accepted? || reply.status != Fresh || f.multi || call.Declined? then (q, reply)
    else
      (q.(state := call.state, tasks := call.tasks, stop := if StopResolved(call.state) then None else q.stop), reply)
  }

  /** Closes a pending stop that already took effect; None is a failed data-plane check. */
  function Resolve(c: Control, f: Profile, check: Progress): Option<Control> {
    if c.stop.None? then Some(c)
    else if StopResolved(c.state) then Some(c.(stop := None))
    else if !f.remote || !f.external then Some(c)
    else if check.Unreachable? then None
    else if check.state == Stopped then Some(c.(state := Stopped, stop := None))
    else Some(c)
  }

  /** What a start of stopped work would record, if there is any. */
  function StartWork(c: Control, f: Profile, probe: Progress): Option<Counts> {
    if f.remote && f.external then
      if probe.Unreachable? || probe.state != Stopped then None
      else
        var k := StartCounts(probe.tables);
        Some(if k.acted == 0 then k.(acted := 1) else k)
    else if Count(c.tasks, IsStopped) == 0 then None
    else Some(StartCounts(c.tasks))
  }

  function QueuedStart(c: Control, k: Counts): (Control, Reply) {
    if c.start.Some? then (c, Accepted(c.start.value, AlreadyRequested)) else (c.(start := Some(k)), Accepted(k, Fresh))
  }

  function StartOf(c: Control, f: Profile, check: Progress, probe: Progress): (Control, Reply) {
    if !StartAllowed(c.state) || (f.deferDeploy && c.state != WaitingForDeploy) then (c, Rejected)
    else
      var resolved := Resolve(c, f, check);
      if resolved.None? then (c, Rejected)
      else
        var r := resolved.value;
        if r.stop.Some? then (r, Rejected)
        else if r.state == WaitingForDeploy then QueuedStart(r, Counts(1, 0))
        else if r.start.Some? then (r, Accepted(r.start.value, AlreadyRequested))
        else if !MayHaveStoppedTasks(r.state) then (r, Rejected)
        else
          var k := StartWork(r, f, probe);
          if k.None? then (r, Rejected) else (r.(state := Stopped, start := Some(k.value)), Accepted(k.value, Fresh))
  }

  function ReadinessOf(c: Control, f: Profile, probe: Progress): Option<Readiness> {
    if c.state == WaitingForCutover then Some(Ready)
    else if c.state == CuttingOver then Some(InProgress)
    else if c.state == Recovering then Some(InRecovery)
    else if !f.multi && f.remote && f.external then
      if probe.Unreachable? then None
      else if probe.state == WaitingForCutover || probe.state == CuttingOver then Some(Ready)
      else if probe.state == Recovering then Some(InRecovery)
      else Some(NotReady)
    else if !RunningFamily(c.state) then Some(NotReady)
    else if CuttingOver in c.tasks then Some(InProgress)
    else if WaitingForCutover in c.tasks then Some(Ready)
    else Some(NotReady)
  }

  function CutoverOf(c: Control, f: Profile, probe: Progress): (Control, Reply) {
    if c.stop.Some? then (c, Rejected)
    else if c.cutover then (c, Accepted(Counts(0, 0), AlreadyRequested))
    else
      var readiness := ReadinessOf(c, f, probe);
      if readiness == Some(InProgress) then (c, Accepted(Counts(0, 0), AlreadyInProgress))
      else if readiness == Some(Ready) then (c.(cutover := true), Accepted(Counts(0, 0), Fresh))
      else (c, Rejected)
  }

  // ---------------------------------------------------------------- when a call is accepted

  /** One remote data plane can answer for the whole apply. */
  predicate SingleRemote(f: Profile) {
    !f.multi && f.remote && f.external
  }

  predicate ReportsOneOf(p: Progress, states: set<State>) {
    p.Progress? && p.state in states
  }

  /** Something waits for the cutover and nothing is past it, as far as the store or the one remote can tell. */
  predicate AwaitsCutover(c: Control, f: Profile, probe: Progress) {
    || c.state == WaitingForCutover
    || (SingleRemote(f) && c.state !in {CuttingOver, Recovering}
        && ReportsOneOf(probe, {WaitingForCutover, CuttingOver}))
    || (!SingleRemote(f) && c.state in {Running, RunningDegraded}
        && WaitingForCutover in c.tasks && CuttingOver !in c.tasks)
  }

  predicate CutsOver(c: Control, f: Profile) {
    || c.state == CuttingOver
    || (!SingleRemote(f) && c.state in {Running, RunningDegraded} && CuttingOver in c.tasks)
  }

  lemma ReadinessIff(c: Control, f: Profile, probe: Progress)
    ensures ReadinessOf(c, f, probe) == Some(Ready) <==> AwaitsCutover(c, f, probe)
    ensures ReadinessOf(c, f, probe) == Some(InProgress) <==> CutsOver(c, f)
    ensures ReadinessOf(c, f, probe) == Some(InRecovery) <==>
            || c.state == Recovering
            || (SingleRemote(f) && c.state !in {WaitingForCutover, CuttingOver} && ReportsOneOf(probe, {Recovering}))
    ensures ReadinessOf(c, f, probe) == None <==>
            SingleRemote(f) && probe.Unreachable? && c.state !in {WaitingForCutover, CuttingOver, Recovering}
  {
  }

  /** A pending stop is no obstacle to a start: it took effect, or the remote reports that it did. */
  predicate StopTookEffect(c: Control, f: Profile, check: Progress) {
    StopResolved(c.state) || (f.remote && f.external && ReportsOneOf(check, {Stopped}))
  }

  /** The stored state a start works on: a stop seen on the remote is synced first. */
  function StartsFrom(c: Control, f: Profile, check: Progress): State {
    if c.stop.Some? && !StopResolved(c.state) && f.remote && f.external && ReportsOneOf(check, {Stopped}) then Stopped
    else c.state
  }

  predicate HasStoppedWork(c: Control, f: Profile, probe: Progress) {
    if f.remote && f.external then ReportsOneOf(probe, {Stopped}) else Stopped in c.tasks
  }

  predicate StartAccepted(c: Control, f: Profile, check: Progress, probe: Progress) {
    && c.state in {WaitingForDeploy, Pending, Running, RunningDegraded, Stopped}
    && (f.deferDeploy ==> c.state == WaitingForDeploy)
    && (c.stop.Some? ==> StopTookEffect(c, f, check))
    && (|| c.start.Some?
        || StartsFrom(c, f, check) == WaitingForDeploy
        || (StartsFrom(c, f, check) in {Running, RunningDegraded, Stopped} && HasStoppedWork(c, f, probe)))
  }

  /** The tasks a start counts: the remote's tables where it answers for them, the stored ones elsewhere. */
  function StartTasks(c: Control, f: Profile, probe: Progress): seq<State> {
    if !(f.remote && f.external) then c.tasks else if probe.Progress? then probe.tables else []
  }

  /** Stopped tasks, at least one, and finished ones. */
  function StartRecord(ts: seq<State>): Counts {
    Counts(if Stopped in ts then Count(ts, IsStopped) else 1, Count(ts, TerminalTask))
  }

  lemma WorkRecord(c: Control, f: Profile, probe: Progress)
    ensures StartWork(c, f, probe) ==
            if HasStoppedWork(c, f, probe) then Some(StartRecord(StartTasks(c, f, probe))) else None
  {
    CountedIff(StartTasks(c, f, probe));
  }

  /** Exactly when a start is accepted. */
  lemma StartIff(c: Control, f: Profile, check: Progress, probe: Progress)
    ensures var (_, reply) := StartOf(c, f, check, probe); reply.Accepted? <==> StartAccepted(c, f, check, probe)
  {
    CountedIff(c.tasks);
  }

  /** What a new start records, and the state it leaves. */
  lemma StartRecords(c: Control, f: Profile, check: Progress, probe: Progress)
    requires StartAccepted(c, f, check, probe) && c.start.None?
    ensures var (t, _) := StartOf(c, f, check, probe);
            if StartsFrom(c, f, check) == WaitingForDeploy
            then t.start == Some(Counts(1, 0)) && t.state == WaitingForDeploy
            else t.start == Some(StartRecord(StartTasks(c, f, probe))) && t.state == Stopped
  {
    WorkRecord(c, f, probe);
  }

  /** What every handler call and every operator step respects. */
  ghost predicate Orderly(c: Control, t: Control) {
    // a start or cutover request appears only while no stop is pending
    && (c.start.None? && t.start.Some? ==> t.stop.None?)
    && (!c.cutover && t.cutover ==> c.stop.None? && t.stop.None?)
    // a new start leaves something for the operator to claim
    && (c.start.None? && t.start.Some? ==>
          (t.state == Stopped || t.state == WaitingForDeploy) && t.start.value.acted >= 1)
    // a stop is completed only over a resolved apply
    && (c.stop.Some? && t.stop.None? ==> StopResolved(t.state))
    // a request's counts never change while it is pending
    && (c.stop.Some? && t.stop.Some? ==> t.stop == c.stop)
    && (c.start.Some? && t.start.Some? ==> t.start == c.start)
  }

  lemma {:induction false} CountedIff(ts: seq<State>)
    ensures Count(ts, IsStopped) > 0 <==> Stopped in ts
  {
    if ts != [] {
      var n := |ts| - 1;
      CountedIff(ts[..n]);
      assert ts == ts[..n] + [ts[n]];
    }
  }

  // ---------------------------------------------------------------- the handlers

  class ControlPlane {
    const profile: Profile
    var state: State
    var tasks: seq<State>
    var stop: Option<Counts>
    var start: Option<Counts>
    var cutover: bool

    ghost function View(): Control
      reads this
    {
      Control(state, tasks, stop, start, cutover)
    }

    constructor (f: Profile, c: Control)
      ensures profile == f && View() == c
    {
      profile, state, tasks, stop, start, cutover := f, c.state, c.tasks, c.stop, c.start, c.cutover;
    }

    method CountForStop() returns (k: Counts)
      ensures k == StopCounts(tasks)
    {
      var stopped, skipped := 0, 0;
      for i := 0 to |tasks|
        invariant stopped + skipped == i && skipped == Count(tasks[..i], TerminalTask)
      {
        assert tasks[..i + 1][..i] == tasks[..i];
        if TerminalTask(tasks[i]) {
          skipped := skipped + 1;
        } else {
          stopped := stopped + 1;
        }
      }
      assert tasks[..|tasks|] == tasks;
      k := Counts(stopped, skipped);
    }

    method ExecuteStop(call: StopCall) returns (reply: Reply)
      modifies this
      ensures Orderly(old(View()), View()) && start == old(start) && cutover == old(cutover)
      // a repeat answers with the stored counts and changes nothing
      ensures old(stop).Some? ==> View() == old(View()) && reply == Accepted(old(stop).value, AlreadyRequested)
      // a first stop needs a live apply with tasks, and accounts for every one of them
      ensures reply.Rejected? <==> old(stop).None? && (Terminal(old(state)) || old(tasks) == [])
      ensures reply.Rejected? ==> View() == old(View())
      ensures old(stop).None? && reply.Accepted? ==>
                && reply.status == Fresh && reply.counts.acted + reply.counts.skipped == |old(tasks)|
                && reply.counts.skipped == Count(old(tasks), TerminalTask)
                && (stop == Some(reply.counts) || (stop == None && StopResolved(state)))
      // only a single-operation apply is stopped at once, and then the request is closed exactly if that resolved it
      ensures profile.multi || call.Declined? ==> state == old(state) && tasks == old(tasks)
      ensures old(stop).None? && reply.Accepted? && !profile.multi && call.Stopping? ==>
                state == call.state && tasks == call.tasks && (stop.None? <==> StopResolved(call.state))
      ensures (View(), reply) == StopOf(old(View()), profile, call)
    {
      if stop.Some? {
        return Accepted(stop.value, AlreadyRequested);
      }
      if Terminal(state) {
        return Rejected;
      }
      var k := CountForStop();
      if k.acted == 0 && k.skipped == 0 {
        return Rejected;
      }
      stop := Some(k);
      reply := Accepted(k, Fresh);
      if profile.multi || call.Declined? {
        return;
      }
      state, tasks := call.state, call.tasks;
      if StopResolved(state) {
        stop := None;
      }
    }

    method CompleteResolvedStopBeforeStart(check: Progress) returns (ok: bool)
      modifies `state, `stop
      // a stop that stays pending changes nothing; one that is closed leaves a resolved apply
      ensures stop.Some? ==> View() == old(View())
      ensures old(stop).Some? && stop.None? ==> StopResolved(state)
      ensures stop.None? <==> old(stop).None? || StopTookEffect(old(View()), profile, check)
      ensures state == StartsFrom(old(View()), profile, check)
      ensures !ok <==> && old(stop).Some? && !StopResolved(old(state))
                       && profile.remote && profile.external && check.Unreachable?
      ensures ok == Resolve(old(View()), profile, check).Some?
      ensures View() == if ok then Resolve(old(View()), profile, check).value else old(View())
    {
      if stop.None? {
        return true;
      }
      if StopResolved(state) {
        stop := None;
        return true;
      }
      if !profile.remote || !profile.external {
        return true;
      }
      if check.Unreachable? {
        return false;
      }
      if check.state != Stopped {
        return true;
      }
      state := Stopped;
      stop := None;
      ok := true;
    }

    method CountForStart(rows: seq<State>) returns (k: Counts)
      ensures k == StartCounts(rows)
    {
      var started, skipped := 0, 0;
      for i := 0 to |rows|
        invariant started == Count(rows[..i], IsStopped) && skipped == Count(rows[..i], TerminalTask)
      {
        assert rows[..i + 1][..i] == rows[..i];
        if rows[i] == Stopped {
          started := started + 1;
        } else if TerminalTask(rows[i]) {
          skipped := skipped + 1;
        }
      }
      assert rows[..|rows|] == rows;
      k := Counts(started, skipped);
    }

    /** Queues a start of stopped work, normalizing a stored apply that still says running. */
    method QueueStopped(probe: Progress) returns (reply: Reply)
      requires MayHaveStoppedTasks(state) && start.None?
      modifies `state, `start
      // accepted work is recorded and leaves the apply claimable; without a remote it is accepted exactly for a
      // stopped task
      ensures reply.Accepted? ==> state == Stopped && start == Some(reply.counts) && reply.counts.acted >= 1
      ensures reply.Rejected? ==> View() == old(View())
      ensures reply.Accepted? <==> HasStoppedWork(old(View()), profile, probe)
      ensures reply.Accepted? ==> reply.counts == StartRecord(StartTasks(old(View()), profile, probe))
      ensures var k := StartWork(old(View()), profile, probe);
              && reply == (if k.None? then Rejected else Accepted(k.value, Fresh))
              && View() == if k.None? then old(View()) else old(View()).(state := Stopped, start := k)
    {
      WorkRecord(View(), profile, probe);
      var k: Counts;
      if profile.remote && profile.external {
        if probe.Unreachable? || probe.state != Stopped {
          return Rejected;
        }
        k := CountForStart(probe.tables);
        if k.acted == 0 {
          k := k.(acted := 1);
        }
      } else {
        CountedIff(tasks);
        k := CountForStart(tasks);
        if k.acted == 0 {
          return Rejected;
        }
      }
      if RunningFamily(state) {
        state := Stopped;
      }
      start := Some(k);
      reply := Accepted(k, Fresh);
    }

    method ExecuteStart(check: Progress, probe: Progress) returns (reply: Reply)
      modifies this
      ensures Orderly(old(View()), View()) && tasks == old(tasks) && cutover == old(cutover)
      // an unresolved stop blocks it
      ensures stop.Some? ==> reply.Rejected? && View() == old(View())
      ensures reply.Rejected? ==> start == old(start)
      // a repeat answers with the stored counts; a new start is recorded and leaves the apply claimable
      ensures reply.Accepted? ==> start == Some(reply.counts) && stop.None?
      ensures reply.Accepted? && old(start).Some? ==> reply.status == AlreadyRequested && start == old(start)
      ensures reply.Accepted? && old(start).None? ==>
                reply.status == Fresh && reply.counts.acted >= 1 && (state == Stopped || state == WaitingForDeploy)
      ensures reply.Accepted? <==> StartAccepted(old(View()), profile, check, probe)
      ensures (View(), reply) == StartOf(old(View()), profile, check, probe)
    {
      StartIff(View(), profile, check, probe);
      if !StartAllowed(state) || (profile.deferDeploy && state != WaitingForDeploy) {
        return Rejected;
      }
      var ok := CompleteResolvedStopBeforeStart(check);
      if !ok || stop.Some? {
        return Rejected;
      }
      if start.Some? {
        return Accepted(start.value, AlreadyRequested);
      }
      if state == WaitingForDeploy {
        start := Some(Counts(1, 0));
        return Accepted(Counts(1, 0), Fresh);
      }
      if !MayHaveStoppedTasks(state) {
        return Rejected;
      }
      reply := QueueStopped(probe);
    }

    method CutoverReadiness(probe: Progress) returns (r: Option<Readiness>)
      ensures r == Some(Ready) <==> AwaitsCutover(View(), profile, probe)
      ensures r == Some(InProgress) <==> CutsOver(View(), profile)
      ensures r == ReadinessOf(View(), profile, probe)
    {
      ReadinessIff(View(), profile, probe);
      if state == WaitingForCutover {
        return Some(Ready);
      }
      if state == CuttingOver {
        return Some(InProgress);
      }
      if state == Recovering {
        return Some(InRecovery);
      }
      if !profile.multi && profile.remote && profile.external {
        if probe.Unreachable? {
          return None;
        }
        if probe.state == WaitingForCutover {
          return Some(Ready);
        }
        if probe.state == Recovering {
          return Some(InRecovery);
        }
        return Some(if probe.state == CuttingOver then Ready else NotReady);
      }
      if !RunningFamily(state) {
        return Some(NotReady);
      }
      var ready := false;
      for i := 0 to |tasks|
        invariant CuttingOver !in tasks[..i]
        invariant ready <==> WaitingForCutover in tasks[..i]
      {
        if tasks[i] == CuttingOver {
          return Some(InProgress);
        }
        if tasks[i] == WaitingForCutover {
          ready := true;
        }
      }
      assert tasks[..|tasks|] == tasks;
      return Some(if ready then Ready else NotReady);
    }

    method ExecuteCutover(probe: Progress) returns (reply: Reply)
      modifies this
      ensures Orderly(old(View()), View()) && View() == old(View()).(cutover := cutover)
      ensures old(stop).Some? ==> reply.Rejected?
      // a request appears exactly on a fresh acceptance, and never goes away here
      ensures cutover <==> old(cutover) || (reply.Accepted? && reply.status == Fresh)
      ensures reply.Accepted? && reply.status == AlreadyRequested <==> old(stop).None? && old(cutover)
      // it is recorded exactly when something waits for it, and answered as in progress exactly when one is
      ensures reply.Accepted? && reply.status == Fresh <==>
                old(stop).None? && !old(cutover) && AwaitsCutover(old(View()), profile, probe)
      ensures reply.Accepted? && reply.status == AlreadyInProgress <==>
                old(stop).None? && !old(cutover) && CutsOver(old(View()), profile)
      ensures (View(), reply) == CutoverOf(old(View()), profile, probe)
    {
      if stop.Some? {
        return Rejected;
      }
      if cutover {
        return Accepted(Counts(0, 0), AlreadyRequested);
      }
      var readiness := CutoverReadiness(probe);
      if readiness == Some(InProgress) {
        return Accepted(Counts(0, 0), AlreadyInProgress);
      }
      if readiness != Some(Ready) {
        return Rejected;
      }
      cutover := true;
      return Accepted(Counts(0, 0), Fresh);
    }
  }

  // ---------------------------------------------------------------- runs of calls

  /** Handler calls, interleaved with everything the operator does to the stored rows. */
  datatype Event =
    | Stop(call: StopCall)
    | Start(check: Progress, probe: Progress)
    | Cutover(probe: Progress)
    | Drift(state: State, tasks: seq<State>)
    | CompleteStop
    | ConsumeStart
    | ConsumeCutover

  /**
   The operator closes a stop only once the stored apply is resolved; it may consume starts and cutovers at any time.
   */
  function After(c: Control, f: Profile, e: Event): Control {
    match e
    case Stop(call) => StopOf(c, f, call).0
    case Start(check, probe) => StartOf(c, f, check, probe).0
    case Cutover(probe) => CutoverOf(c, f, probe).0
    case Drift(s, ts) => c.(state := s, tasks := ts)
    case CompleteStop => if Terminal(c.state) then c.(stop := None) else c
    case ConsumeStart => c.(start := None)
    case ConsumeCutover => c.(cutover := false)
  }

  ghost function Run(c: Control, f: Profile, es: seq<Event>): Control
    decreases |es|
  {
    if es == [] then c else Run(After(c, f, es[0]), f, es[1..])
  }

  lemma EventIsOrderly(c: Control, f: Profile, e: Event)
    ensures Orderly(c, After(c, f, e))
  {
  }

  lemma {:induction false} RunNext(c: Control, f: Profile, es: seq<Event>, e: Event)
    ensures Run(c, f, es + [e]) == After(Run(c, f, es), f, e)
    decreases |es|
  {
    if es == [] {
      assert Run(After(c, f, e), f, [][..]) == After(c, f, e);
      assert ([] + [e])[1..] == [];
    } else {
      RunNext(After(c, f, es[0]), f, es[1..], e);
      assert (es + [e])[1..] == es[1..] + [e];
    }
  }

  /** The store after the first k events. */
  ghost function At(c: Control, f: Profile, es: seq<Event>, k: nat): Control
    requires k <= |es|
  {
    Run(c, f, es[..k])
  }

  lemma AtNext(c: Control, f: Profile, es: seq<Event>, k: nat)
    requires k < |es|
    ensures At(c, f, es, k + 1) == After(At(c, f, es, k), f, es[k]) && Orderly(At(c, f, es, k), At(c, f, es, k + 1))
  {
    RunNext(c, f, es[..k], es[k]);
    assert es[..k + 1] == es[..k] + [es[k]];
    EventIsOrderly(At(c, f, es, k), f, es[k]);
  }

  /** The start pending after n events was created by the k-th one and has been pending ever since. */
  ghost predicate StartedAt(c: Control, f: Profile, es: seq<Event>, n: nat, k: nat)
    requires n <= |es|
  {
    && k < n && es[k].Start? && At(c, f, es, k).start.None?
    && forall j | k < j <= n :: At(c, f, es, j).start == At(c, f, es, n).start && At(c, f, es, j).start.Some?
  }

  ghost predicate StoppedAt(c: Control, f: Profile, es: seq<Event>, n: nat, k: nat)
    requires n <= |es|
  {
    && k < n && es[k].Stop? && At(c, f, es, k).stop.None?
    && forall j | k < j <= n :: At(c, f, es, j).stop == At(c, f, es, n).stop && At(c, f, es, j).stop.Some?
  }

  lemma {:induction false} FindStart(c: Control, f: Profile, es: seq<Event>, n: nat) returns (k: nat)
    requires n <= |es| && c.start.None? && At(c, f, es, n).start.Some?
    ensures StartedAt(c, f, es, n, k)
    decreases n
  {
    assert es[..0] == [] && At(c, f, es, 0) == c;
    AtNext(c, f, es, n - 1);
    if At(c, f, es, n - 1).start.Some? {
      k := FindStart(c, f, es, n - 1);
    } else {
      k := n - 1;
    }
  }

  lemma {:induction false} FindStop(c: Control, f: Profile, es: seq<Event>, n: nat) returns (k: nat)
    requires n <= |es| && c.stop.None? && At(c, f, es, n).stop.Some?
    ensures StoppedAt(c, f, es, n, k)
    decreases n
  {
    assert es[..0] == [] && At(c, f, es, 0) == c;
    AtNext(c, f, es, n - 1);
    if At(c, f, es, n - 1).stop.Some? {
      k := FindStop(c, f, es, n - 1);
    } else {
      k := n - 1;
    }
  }

  /**
   Every pending start of every run goes back to the one call that created it, when no stop was pending and which left
   something for the operator to claim; its counts have not changed since.
   */
  lemma PendingStartHistory(c: Control, f: Profile, es: seq<Event>) returns (k: nat)
    requires c.start.None? && Run(c, f, es).start.Some?
    ensures StartedAt(c, f, es, |es|, k)
    ensures var t := At(c, f, es, k + 1);
            t.stop.None? && (t.state == Stopped || t.state == WaitingForDeploy)
            && t.start == Run(c, f, es).start && t.start.value.acted >= 1
  {
    assert es[..|es|] == es;
    k := FindStart(c, f, es, |es|);
    AtNext(c, f, es, k);
  }

  /** Every pending stop goes back to a call over a live apply, and its counts account for every task there was then. */
  lemma PendingStopHistory(c: Control, f: Profile, es: seq<Event>) returns (k: nat)
    requires c.stop.None? && Run(c, f, es).stop.Some?
    ensures StoppedAt(c, f, es, |es|, k) && !Terminal(At(c, f, es, k).state)
    ensures var s := Run(c, f, es).stop.value; s.acted + s.skipped == |At(c, f, es, k).tasks| > 0
  {
    assert es[..|es|] == es;
    k := FindStop(c, f, es, |es|);
    AtNext(c, f, es, k);
  }

  /** When both are pending, the stop was requested after the start: a start never gets past a pending stop. */
  lemma StopIsNewer(c: Control, f: Profile, es: seq<Event>) returns (start: nat, stop: nat)
    requires c.start.None? && c.stop.None? && Run(c, f, es).start.Some? && Run(c, f, es).stop.Some?
    ensures StartedAt(c, f, es, |es|, start) && StoppedAt(c, f, es, |es|, stop) && start < stop
  {
    start := PendingStartHistory(c, f, es);
    stop := PendingStopHistory(c, f, es);
  }

  ghost predicate StopStaysPending(c: Control, f: Profile, es: seq<Event>)
    decreases |es|
  {
    c.stop.Some? && (es == [] || StopStaysPending(After(c, f, es[0]), f, es[1..]))
  }

  /** However the rows drift, repeating a pending stop returns the first counts and changes nothing. */
  lemma {:induction false} RepeatedStop(c: Control, f: Profile, es: seq<Event>, call: StopCall)
    requires StopStaysPending(c, f, es)
    ensures StopOf(Run(c, f, es), f, call) == (Run(c, f, es), Accepted(c.stop.value, AlreadyRequested))
    decreases |es|
  {
    if es != [] {
      EventIsOrderly(c, f, es[0]);
      RepeatedStop(After(c, f, es[0]), f, es[1..], call);
    }
  }

  ghost predicate StartStaysPending(c: Control, f: Profile, es: seq<Event>)
    decreases |es|
  {
    c.start.Some? && (es == [] || StartStaysPending(After(c, f, es[0]), f, es[1..]))
  }

  /**
   An accepted repeat of a pending start returns the first counts; it changes nothing exactly when no stop was pending.
   */
  lemma {:induction false} RepeatedStart(c: Control, f: Profile, es: seq<Event>, check: Progress, probe: Progress)
    requires StartStaysPending(c, f, es)
    ensures var t := Run(c, f, es);
            var (u, reply) := StartOf(t, f, check, probe);
            && u.start == c.start
            && (reply.Accepted? ==> reply == Accepted(c.start.value, AlreadyRequested))
            && (reply.Accepted? ==> (u == t <==> t.stop.None?))
    decreases |es|
  {
    if es != [] {
      EventIsOrderly(c, f, es[0]);
      RepeatedStart(After(c, f, es[0]), f, es[1..], check, probe);
    }
  }

  /** A repeated start that is not a no-op: a stop requested in between has taken effect, and the repeat closes it. */
  lemma RepeatedStartClosesStop()
    ensures var f := Profile(false, false, false, false);
            var c := Control(Running, [Stopped], None, None, false);
            var es := [Start(Unreachable, Unreachable), Drift(Running, [Running]), Stop(Declined),
                       Drift(Stopped, [Stopped])];
            var t := Run(c, f, es);
            && t.start == Some(Counts(1, 0)) && t.stop == Some(Counts(1, 0))
            && StartOf(t, f, Unreachable, Unreachable) == (t.(stop := None), Accepted(Counts(1, 0), AlreadyRequested))
  {
  }
}
