/**
 Fan-out of one plan into operation groups: the unsharded form with one group per
 target, and the sharded form with one work group per shard and table plus a
 task-less finalizer per namespace whose VSchema changes.
 */
module FanOut {
  import opened ApplyRows
  import opened Names
  import Routing
  import SchemaPaths

  datatype Result<T> = Ok(value: T) | Err

  type Target = Routing.Target
  datatype Change = Change(namespace: string, table: string, ddl: string, action: string)
  datatype Shard = Shard(shard: string, namespace: string, needsChange: bool)
  /** VSchema text per namespace; the empty text is no VSchema change. */
  datatype Plan = Plan(shards: seq<Shard>, vschema: map<string, string>)

  /** One task to create: a change on a shard, with the operation key it is grouped under. */
  datatype Job = Job(key: string, change: Change, shard: string)
  datatype Group = Group(deployment: string, target: string, key: string, kind: Kind, tasks: seq<Job>, taskless: bool)

  const KEY_MAX_LEN := 255
  const FINALIZER_SEGMENT := "group_finalizer"

  // ---------------------------------------------------------------- operation keys

  function ShardKey(namespace: string, shard: string, table: string): string {
    namespace + "/" + shard + "/" + table
  }

  function FinalizerKey(namespace: string): string {
    namespace + "/" + FINALIZER_SEGMENT
  }

  /** The lookup key of a group while a fan-out is being built. */
  function GroupKey(deployment: string, key: string): string {
    deployment + "\0" + key
  }

  /** A separator that does not occur in either prefix splits a concatenation in one way only. */
  lemma SplitOnce(a: string, b: string, x: string, y: string, sep: char)
    requires sep !in a && sep !in b && a + [sep] + x == b + [sep] + y
    ensures a == b && x == y
  {
    var l, r := a + [sep] + x, b + [sep] + y;
    assert l[|a|] == sep && r[|b|] == sep;
    assert forall k | 0 <= k < |a| :: l[k] == a[k] && a[k] in a;
    assert forall k | 0 <= k < |b| :: r[k] == b[k] && b[k] in b;
    assert |a| == |b|;
    assert a == l[..|a|] && b == r[..|b|];
    assert x == l[|a| + 1..] && y == r[|b| + 1..];
  }

  /** Work keys name exactly one namespace, shard and table, and never equal a finalizer key. */
  lemma ShardKeysInjective(ns: string, shard: string, table: string, ns': string, shard': string, table': string)
    requires '/' !in ns && '/' !in shard && '/' !in ns' && '/' !in shard'
    requires ShardKey(ns, shard, table) == ShardKey(ns', shard', table')
    ensures ns == ns' && shard == shard' && table == table'
  {
    assert ShardKey(ns, shard, table) == ns + ['/'] + (shard + "/" + table);
    assert ShardKey(ns', shard', table') == ns' + ['/'] + (shard' + "/" + table');
    SplitOnce(ns, ns', shard + "/" + table, shard' + "/" + table', '/');
    SplitOnce(shard, shard', table, table', '/');
  }

  lemma KeysDisjoint(ns: string, shard: string, table: string, finalized: string)
    requires '/' !in ns && '/' !in finalized
    ensures ShardKey(ns, shard, table) != FinalizerKey(finalized)
  {
    var rest := shard + "/" + table;
    assert rest[|shard|] == '/' && '/' !in FINALIZER_SEGMENT;
    assert ShardKey(ns, shard, table) == ns + ['/'] + rest;
    if ShardKey(ns, shard, table) == FinalizerKey(finalized) {
      SplitOnce(ns, finalized, rest, FINALIZER_SEGMENT, '/');
    }
  }

  /** Both kinds of key name their namespace to the claim gate, so a finalizer gates on exactly its namespace's work. */
  lemma {:induction false} KeyNamespaces(namespace: string, rest: string)
    requires '/' !in namespace
    ensures KeyNamespace(namespace + "/" + rest) == namespace
  {
    var key := namespace + "/" + rest;
    if namespace != "" {
      assert key[1..] == namespace[1..] + "/" + rest;
      KeyNamespaces(namespace[1..], rest);
    }
  }

  /** Every key the fan-out makes names its namespace to the claim gate. */
  lemma KeysNameNamespace(ns: string, shard: string, table: string)
    requires '/' !in ns
    ensures KeyNamespace(ShardKey(ns, shard, table)) == ns == KeyNamespace(FinalizerKey(ns))
  {
    assert ShardKey(ns, shard, table) == ns + "/" + (shard + "/" + table);
    KeyNamespaces(ns, shard + "/" + table);
    KeyNamespaces(ns, FINALIZER_SEGMENT);
  }

  /** And a work key is read back, segment by segment, as what it was made of. */
  lemma ShardKeyParts(ns: string, shard: string, table: string)
    requires '/' !in ns && '/' !in shard && '/' !in table
    ensures SchemaPaths.Segs(ShardKey(ns, shard, table)) == [ns, shard, table]
  {
    assert ShardKey(ns, shard, table) == ns + "/" + (shard + "/" + table);
    SchemaPaths.SegsConcat(ns, shard + "/" + table);
    SchemaPaths.SegsConcat(shard, table);
    SchemaPaths.SegsOfOne(ns);
    SchemaPaths.SegsOfOne(shard);
    SchemaPaths.SegsOfOne(table);
  }

  // ---------------------------------------------------------------- what a fan-out consists of

  function ChangingOf(shards: seq<Shard>, namespace: string): seq<Shard> {
    if shards == [] then []
    else
      var last := shards[|shards| - 1];
      var rest := ChangingOf(shards[..|shards| - 1], namespace);
      if last.needsChange && last.namespace == namespace then rest + [last] else rest
  }

  predicate ByName(shards: seq<Shard>) {
    forall i, j | 0 <= i < j < |shards| :: !Before(shards[j].shard, shards[i].shard)
  }

  function InsertByName(shards: seq<Shard>, s: Shard): seq<Shard> {
    if shards == [] || !Before(shards[0].shard, s.shard) then [s] + shards
    else [shards[0]] + InsertByName(shards[1..], s)
  }

  lemma {:induction false} InsertedByName(shards: seq<Shard>, s: Shard)
    requires ByName(shards)
    ensures ByName(InsertByName(shards, s)) && multiset(InsertByName(shards, s)) == multiset(shards) + multiset{s}
  {
    if shards == [] || !Before(shards[0].shard, s.shard) {
      PrependByName(shards, s);
    } else {
      assert shards == [shards[0]] + shards[1..];
      InsertedByName(shards[1..], s);
      MembersByName(shards[0], shards[1..], s, InsertByName(shards[1..], s));
    }
  }

  lemma PrependByName(shards: seq<Shard>, s: Shard)
    requires ByName(shards) && (shards == [] || !Before(shards[0].shard, s.shard))
    ensures ByName([s] + shards)
  {
    var r := [s] + shards;
    forall j | 0 < j < |r| ensures !Before(r[j].shard, s.shard) {
      if j > 1 && Before(r[j].shard, s.shard) {
        BeforeTotal(s.shard, shards[0].shard);
        if Before(s.shard, shards[0].shard) {
          BeforeTransitive(r[j].shard, s.shard, shards[0].shard);
        }
      }
    }
  }

  lemma MembersByName(head: Shard, tail: seq<Shard>, s: Shard, rest: seq<Shard>)
    requires ByName([head] + tail) && Before(head.shard, s.shard)
    requires ByName(rest) && multiset(rest) == multiset(tail) + multiset{s}
    ensures ByName([head] + rest)
  {
    var r := [head] + rest;
    forall j | 0 < j < |r| ensures !Before(r[j].shard, head.shard) {
      assert r[j] in multiset(rest);
      BeforeTotal(head.shard, s.shard);
      if r[j] in tail {
        var k :| 0 <= k < |tail| && tail[k] == r[j];
        assert ([head] + tail)[0] == head && ([head] + tail)[k + 1] == r[j];
      }
    }
  }

  function SortByName(shards: seq<Shard>): seq<Shard> {
    if shards == [] then [] else InsertByName(SortByName(shards[..|shards| - 1]), shards[|shards| - 1])
  }

  /** The sort loses and invents nothing. */
  lemma {:induction false} SortedByName(shards: seq<Shard>)
    ensures ByName(SortByName(shards)) && multiset(SortByName(shards)) == multiset(shards)
  {
    if shards != [] {
      var init, last := shards[..|shards| - 1], shards[|shards| - 1];
      SortedByName(init);
      InsertedByName(SortByName(init), last);
      assert shards == init + [last];
    }
  }

  /** The shards a change of this namespace runs on. */
  function ShardsIn(shards: seq<Shard>, namespace: string): seq<Shard> {
    SortByName(ChangingOf(shards, namespace))
  }

  function JobOf(change: Change, shard: string): Job {
    Job(ShardKey(change.namespace, shard, change.table), change, shard)
  }

  /** The work of one target: every change on every changing shard of its namespace. */
  function ChangeJobs(change: Change, shards: seq<Shard>): (jobs: seq<Job>)
    ensures |jobs| == |shards|
    ensures forall i | 0 <= i < |shards| :: jobs[i] == JobOf(change, shards[i].shard)
  {
    seq(|shards|, i requires 0 <= i < |shards| => JobOf(change, shards[i].shard))
  }

  function Jobs(changes: seq<Change>, shards: seq<Shard>): seq<Job> {
    if changes == [] then []
    else
      var last := changes[|changes| - 1];
      Jobs(changes[..|changes| - 1], shards) + ChangeJobs(last, ShardsIn(shards, last.namespace))
  }

  /** The jobs a key collects, in order. */
  function Select(jobs: seq<Job>, key: string): seq<Job> {
    if jobs == [] then []
    else
      var last := jobs[|jobs| - 1];
      var rest := Select(jobs[..|jobs| - 1], key);
      if last.key == key then rest + [last] else rest
  }

  // ---------------------------------------------------------------- building groups

  function NewGroup(t: Target, key: string, kind: Kind, tasks: seq<Job>): Group {
    Group(t.deployment, t.target, key, kind, tasks, false)
  }

  /** Position of the work group with this lookup key, or the length. */
  function Find(gs: seq<Group>, lookup: string): (i: nat)
    ensures i <= |gs|
    ensures i < |gs| ==> gs[i].kind == Work && GroupKey(gs[i].deployment, gs[i].key) == lookup
    ensures forall k | 0 <= k < i :: !(gs[k].kind == Work && GroupKey(gs[k].deployment, gs[k].key) == lookup)
  {
    if gs == [] then 0
    else if gs[0].kind == Work && GroupKey(gs[0].deployment, gs[0].key) == lookup then 0
    else
      assert forall k | 0 < k < |gs| :: gs[k] == gs[1..][k - 1];
      1 + Find(gs[1..], lookup)
  }

  /** Adds one job to its group, opening the group if it is the first. */
  function Put(gs: seq<Group>, t: Target, w: Job): seq<Group> {
    var i := Find(gs, GroupKey(t.deployment, w.key));
    if i < |gs| then gs[i := gs[i].(tasks := gs[i].tasks + [w])] else gs + [NewGroup(t, w.key, Work, [w])]
  }

  function PutAll(gs: seq<Group>, t: Target, jobs: seq<Job>): seq<Group> {
    if jobs == [] then gs else Put(PutAll(gs, t, jobs[..|jobs| - 1]), t, jobs[|jobs| - 1])
  }

  function Finalizers(t: Target, namespaces: seq<string>): (gs: seq<Group>)
    ensures |gs| == |namespaces|
    ensures forall i | 0 <= i < |gs| :: gs[i] == NewGroup(t, FinalizerKey(namespaces[i]), Finalizer, [])
  {
    seq(|namespaces|, i requires 0 <= i < |namespaces| => NewGroup(t, FinalizerKey(namespaces[i]), Finalizer, []))
  }

  function Fan(targets: seq<Target>, jobs: seq<Job>, namespaces: seq<string>): seq<Group> {
    if targets == [] then []
    else
      var t := targets[|targets| - 1];
      PutAll(Fan(targets[..|targets| - 1], jobs, namespaces), t, jobs) + Finalizers(t, namespaces)
  }

  // ---------------------------------------------------------------- one target

  lemma GroupKeysInjective(d: string, key: string, e: string, other: string)
    requires '\0' !in d && '\0' !in e
    ensures GroupKey(d, key) == GroupKey(e, other) <==> d == e && key == other
  {
    if GroupKey(d, key) == GroupKey(e, other) {
      SplitOnce(d, e, key, other, '\0');
    }
  }

  /** What one target's work groups are: one per key, holding exactly the jobs of that key. */
  ghost predicate Routed(gs: seq<Group>, t: Target, jobs: seq<Job>) {
    && (forall i | 0 <= i < |gs| :: HoldsJobs(gs[i], t, jobs))
    && DistinctKeys(gs)
    && (forall j | 0 <= j < |jobs| :: HasKey(gs, jobs[j].key))
  }

  /** The row's columns that say where it runs. */
  predicate AddressedTo(g: Group, t: Target) {
    g.deployment == t.deployment && g.target == t.target && !g.taskless
  }

  ghost predicate HoldsJobs(g: Group, t: Target, jobs: seq<Job>) {
    g.kind == Work && AddressedTo(g, t) && g.tasks == Select(jobs, g.key) != []
  }

  ghost predicate DistinctKeys(gs: seq<Group>) {
    forall i, j | 0 <= i < j < |gs| :: gs[i].key != gs[j].key
  }

  ghost predicate HasKey(gs: seq<Group>, key: string) {
    exists i | 0 <= i < |gs| :: gs[i].key == key
  }

  lemma SelectLast(jobs: seq<Job>, w: Job, key: string)
    ensures Select(jobs + [w], key) == if w.key == key then Select(jobs, key) + [w] else Select(jobs, key)
  {
    assert (jobs + [w])[..|jobs|] == jobs;
  }

  lemma {:induction false} SelectNone(jobs: seq<Job>, key: string)
    requires forall j | 0 <= j < |jobs| :: jobs[j].key != key
    ensures Select(jobs, key) == []
  {
    if jobs != [] {
      SelectNone(jobs[..|jobs| - 1], key);
    }
  }

  /** Within one target the lookup finds the group with the job's key, if there is one. */
  lemma FindByKey(gs: seq<Group>, t: Target, jobs: seq<Job>, key: string)
    requires Routed(gs, t, jobs) && '\0' !in t.deployment
    ensures var i := Find(gs, GroupKey(t.deployment, key)); forall k | 0 <= k < |gs| :: gs[k].key == key <==> k == i
  {
    forall k | 0 <= k < |gs| ensures gs[k].deployment == t.deployment && gs[k].kind == Work {
      assert HoldsJobs(gs[k], t, jobs);
    }
    forall k | 0 <= k < |gs|
      ensures GroupKey(t.deployment, gs[k].key) == GroupKey(t.deployment, key) <==> gs[k].key == key
    {
      GroupKeysInjective(t.deployment, gs[k].key, t.deployment, key);
    }
  }

  lemma RoutedNew(gs: seq<Group>, t: Target, jobs: seq<Job>, w: Job)
    requires Routed(gs, t, jobs) && !HasKey(gs, w.key)
    ensures Routed(gs + [NewGroup(t, w.key, Work, [w])], t, jobs + [w])
  {
    var r, all := gs + [NewGroup(t, w.key, Work, [w])], jobs + [w];
    assert forall j | 0 <= j < |jobs| :: HasKey(gs, jobs[j].key);
    SelectNone(jobs, w.key);
    forall i | 0 <= i < |r| ensures HoldsJobs(r[i], t, all) {
      SelectLast(jobs, w, r[i].key);
      if i < |gs| {
        assert HoldsJobs(gs[i], t, jobs);
      }
    }
    forall j | 0 <= j < |all| ensures HasKey(r, all[j].key) {
      if j < |jobs| {
        var i :| 0 <= i < |gs| && gs[i].key == jobs[j].key;
        assert r[i].key == all[j].key;
      } else {
        assert r[|gs|].key == all[j].key;
      }
    }
  }

  lemma RoutedMore(gs: seq<Group>, t: Target, jobs: seq<Job>, w: Job, i: nat)
    requires Routed(gs, t, jobs) && i < |gs| && gs[i].key == w.key
    ensures Routed(gs[i := gs[i].(tasks := gs[i].tasks + [w])], t, jobs + [w])
  {
    var r, all := gs[i := gs[i].(tasks := gs[i].tasks + [w])], jobs + [w];
    forall k | 0 <= k < |r| ensures HoldsJobs(r[k], t, all) && r[k].key == gs[k].key {
      SelectLast(jobs, w, r[k].key);
      assert HoldsJobs(gs[k], t, jobs);
    }
    forall j | 0 <= j < |all| ensures HasKey(r, all[j].key) {
      if j < |jobs| {
        var k :| 0 <= k < |gs| && gs[k].key == jobs[j].key;
        assert r[k].key == all[j].key;
      } else {
        assert r[i].key == all[j].key;
      }
    }
  }

  lemma RoutedPut(gs: seq<Group>, t: Target, jobs: seq<Job>, w: Job)
    requires Routed(gs, t, jobs) && '\0' !in t.deployment
    ensures Routed(Put(gs, t, w), t, jobs + [w])
  {
    FindByKey(gs, t, jobs, w.key);
    var i := Find(gs, GroupKey(t.deployment, w.key));
    if i < |gs| {
      RoutedMore(gs, t, jobs, w, i);
    } else {
      RoutedNew(gs, t, jobs, w);
    }
  }

  lemma {:induction false} TargetRouted(t: Target, jobs: seq<Job>)
    requires '\0' !in t.deployment
    ensures Routed(PutAll([], t, jobs), t, jobs)
  {
    if jobs != [] {
      var n := |jobs| - 1;
      TargetRouted(t, jobs[..n]);
      RoutedPut(PutAll([], t, jobs[..n]), t, jobs[..n], jobs[n]);
      assert jobs == jobs[..n] + [jobs[n]];
    }
  }

  // ---------------------------------------------------------------- all targets

  predicate NulFree(targets: seq<Target>) {
    forall a | 0 <= a < |targets| :: '\0' !in targets[a].deployment
  }

  ghost predicate DistinctDeployments(targets: seq<Target>) {
    forall a, b | 0 <= a < b < |targets| :: targets[a].deployment != targets[b].deployment
  }

  /** Groups of other deployments: the lookup passes over them. */
  ghost predicate Elsewhere(gs: seq<Group>, t: Target) {
    forall i | 0 <= i < |gs| :: '\0' !in gs[i].deployment && gs[i].deployment != t.deployment
  }

  lemma PutApart(gs: seq<Group>, hs: seq<Group>, t: Target, w: Job)
    requires Elsewhere(gs, t) && '\0' !in t.deployment
    ensures Put(gs + hs, t, w) == gs + Put(hs, t, w)
  {
    var lookup := GroupKey(t.deployment, w.key);
    forall k | 0 <= k < |gs| ensures GroupKey(gs[k].deployment, gs[k].key) != lookup {
      GroupKeysInjective(gs[k].deployment, gs[k].key, t.deployment, w.key);
    }
    FindApart(gs, hs, lookup);
  }

  lemma FindApart(gs: seq<Group>, hs: seq<Group>, lookup: string)
    requires forall k | 0 <= k < |gs| :: GroupKey(gs[k].deployment, gs[k].key) != lookup
    ensures Find(gs + hs, lookup) == |gs| + Find(hs, lookup)
  {
    var all, i, j := gs + hs, Find(gs + hs, lookup), Find(hs, lookup);
    assert forall k | 0 <= k < |gs| :: all[k] == gs[k];
    assert forall k | 0 <= k < |hs| :: all[|gs| + k] == hs[k];
    assert i >= |gs|;
    assert i < |all| ==> all[i] == hs[i - |gs|];
    assert j < |hs| ==> all[|gs| + j] == hs[j];
  }

  lemma {:induction false} PutAllApart(gs: seq<Group>, t: Target, jobs: seq<Job>)
    requires Elsewhere(gs, t) && '\0' !in t.deployment
    ensures PutAll(gs, t, jobs) == gs + PutAll([], t, jobs)
  {
    if jobs != [] {
      var n := |jobs| - 1;
      PutAllApart(gs, t, jobs[..n]);
      PutApart(gs, PutAll([], t, jobs[..n]), t, jobs[n]);
    }
  }

  function TargetGroups(t: Target, jobs: seq<Job>, namespaces: seq<string>): seq<Group> {
    PutAll([], t, jobs) + Finalizers(t, namespaces)
  }

  /** Keys as the validators leave them: no part holds the delimiter. */
  predicate SoundJob(w: Job) {
    && w == JobOf(w.change, w.shard)
    && '/' !in w.change.namespace && '/' !in w.shard && '/' !in w.change.table && |w.key| <= KEY_MAX_LEN
  }

  predicate SoundNamespace(namespace: string) {
    '/' !in namespace && |FinalizerKey(namespace)| <= KEY_MAX_LEN
  }

  ghost predicate Sound(jobs: seq<Job>, namespaces: seq<string>) {
    SoundJobs(jobs) && forall n | 0 <= n < |namespaces| :: SoundNamespace(namespaces[n])
  }

  ghost predicate SoundJobs(jobs: seq<Job>) {
    forall j | 0 <= j < |jobs| :: SoundJob(jobs[j])
  }

  lemma {:induction false} SelectMember(jobs: seq<Job>, key: string) returns (j: nat)
    requires Select(jobs, key) != []
    ensures j < |jobs| && jobs[j].key == key
  {
    var n := |jobs| - 1;
    if jobs[n].key == key {
      j := n;
    } else {
      j := SelectMember(jobs[..n], key);
    }
  }

  /** A finalizer's key is its own among all groups of its target. */
  lemma FinalizerKeyIsFree(gs: seq<Group>, t: Target, jobs: seq<Job>, namespace: string, i: nat)
    requires Routed(gs, t, jobs) && i < |gs| && SoundNamespace(namespace)
    requires SoundJobs(jobs)
    ensures gs[i].key != FinalizerKey(namespace)
  {
    assert HoldsJobs(gs[i], t, jobs);
    var j := SelectMember(jobs, gs[i].key);
    KeysDisjoint(jobs[j].change.namespace, jobs[j].shard, jobs[j].change.table, namespace);
  }

  lemma FinalizerKeysInjective(a: string, b: string)
    requires '/' !in a && '/' !in b && FinalizerKey(a) == FinalizerKey(b)
    ensures a == b
  {
    SplitOnce(a, b, FINALIZER_SEGMENT, FINALIZER_SEGMENT, '/');
  }

  lemma TargetKeysDistinct(t: Target, jobs: seq<Job>, namespaces: seq<string>)
    requires '\0' !in t.deployment && Sound(jobs, namespaces) && Distinct(namespaces)
    ensures DistinctKeys(TargetGroups(t, jobs, namespaces))
  {
    var ws, fs := PutAll([], t, jobs), Finalizers(t, namespaces);
    TargetRouted(t, jobs);
    forall i, n | 0 <= i < |ws| && 0 <= n < |fs| ensures ws[i].key != fs[n].key {
      FinalizerKeyIsFree(ws, t, jobs, namespaces[n], i);
    }
    forall m, n | 0 <= m < n < |fs| ensures fs[m].key != fs[n].key {
      if fs[m].key == fs[n].key {
        FinalizerKeysInjective(namespaces[m], namespaces[n]);
      }
    }
  }

  // The whole fan-out, group by group.

  ghost predicate DistinctPairs(gs: seq<Group>) {
    forall i, j | 0 <= i < j < |gs| :: gs[i].deployment != gs[j].deployment || gs[i].key != gs[j].key
  }

  /** A group of target t: a key's jobs, or one namespace's task-less finalizer. */
  ghost predicate BelongsTo(g: Group, t: Target, jobs: seq<Job>, namespaces: seq<string>) {
    if g.kind == Work then HoldsJobs(g, t, jobs)
    else AddressedTo(g, t) && g.tasks == [] && exists n | 0 <= n < |namespaces| :: g.key == FinalizerKey(namespaces[n])
  }

  ghost predicate HasGroup(gs: seq<Group>, deployment: string, key: string, kind: Kind) {
    exists i | 0 <= i < |gs| :: gs[i].deployment == deployment && gs[i].key == key && gs[i].kind == kind
  }

  /** Every job of the target has its work group and every namespace its finalizer. */
  ghost predicate Covers(gs: seq<Group>, t: Target, jobs: seq<Job>, namespaces: seq<string>) {
    && (forall j | 0 <= j < |jobs| :: HasGroup(gs, t.deployment, jobs[j].key, Work))
    && (forall n | 0 <= n < |namespaces| :: HasGroup(gs, t.deployment, FinalizerKey(namespaces[n]), Finalizer))
  }

  ghost predicate Placed(g: Group, targets: seq<Target>, jobs: seq<Job>, namespaces: seq<string>) {
    exists a | 0 <= a < |targets| :: BelongsTo(g, targets[a], jobs, namespaces)
  }

  ghost predicate Exact(gs: seq<Group>, targets: seq<Target>, jobs: seq<Job>, namespaces: seq<string>) {
    && DistinctPairs(gs)
    && (forall i | 0 <= i < |gs| :: Placed(gs[i], targets, jobs, namespaces))
    && (forall a | 0 <= a < |targets| :: Covers(gs, targets[a], jobs, namespaces))
  }

  lemma TargetBelongs(t: Target, jobs: seq<Job>, namespaces: seq<string>)
    requires '\0' !in t.deployment
    ensures var gs := TargetGroups(t, jobs, namespaces);
            forall i | 0 <= i < |gs| :: BelongsTo(gs[i], t, jobs, namespaces) && gs[i].deployment == t.deployment
  {
    TargetRouted(t, jobs);
    var ws, gs := PutAll([], t, jobs), TargetGroups(t, jobs, namespaces);
    forall i | 0 <= i < |gs| ensures BelongsTo(gs[i], t, jobs, namespaces) && gs[i].deployment == t.deployment {
      if i < |ws| {
        assert HoldsJobs(ws[i], t, jobs);
      } else {
        assert gs[i] == NewGroup(t, FinalizerKey(namespaces[i - |ws|]), Finalizer, []);
      }
    }
  }

  lemma WorkCovered(t: Target, jobs: seq<Job>, namespaces: seq<string>, j: nat)
    requires '\0' !in t.deployment && j < |jobs|
    ensures HasGroup(TargetGroups(t, jobs, namespaces), t.deployment, jobs[j].key, Work)
  {
    TargetRouted(t, jobs);
    var ws, gs := PutAll([], t, jobs), TargetGroups(t, jobs, namespaces);
    assert HasKey(ws, jobs[j].key);
    var i :| 0 <= i < |ws| && ws[i].key == jobs[j].key;
    assert HoldsJobs(ws[i], t, jobs) && gs[i] == ws[i];
  }

  lemma TargetCovers(t: Target, jobs: seq<Job>, namespaces: seq<string>)
    requires '\0' !in t.deployment
    ensures Covers(TargetGroups(t, jobs, namespaces), t, jobs, namespaces)
  {
    var ws, gs := PutAll([], t, jobs), TargetGroups(t, jobs, namespaces);
    forall j | 0 <= j < |jobs| ensures HasGroup(gs, t.deployment, jobs[j].key, Work) {
      WorkCovered(t, jobs, namespaces, j);
    }
    forall n | 0 <= n < |namespaces| ensures HasGroup(gs, t.deployment, FinalizerKey(namespaces[n]), Finalizer) {
      assert gs[|ws| + n] == NewGroup(t, FinalizerKey(namespaces[n]), Finalizer, []);
    }
  }

  lemma CoversMore(gs: seq<Group>, hs: seq<Group>, t: Target, jobs: seq<Job>, namespaces: seq<string>)
    requires Covers(gs, t, jobs, namespaces) || Covers(hs, t, jobs, namespaces)
    ensures Covers(gs + hs, t, jobs, namespaces)
  {
    forall key, kind | HasGroup(gs, t.deployment, key, kind) || HasGroup(hs, t.deployment, key, kind)
      ensures HasGroup(gs + hs, t.deployment, key, kind)
    {
      if i :| 0 <= i < |gs| && gs[i].deployment == t.deployment && gs[i].key == key && gs[i].kind == kind {
        assert (gs + hs)[i] == gs[i];
      } else {
        var i :| 0 <= i < |hs| && hs[i].deployment == t.deployment && hs[i].key == key && hs[i].kind == kind;
        assert (gs + hs)[|gs| + i] == hs[i];
      }
    }
  }

  lemma ExactMore(gs: seq<Group>, targets: seq<Target>, t: Target, jobs: seq<Job>, namespaces: seq<string>)
    requires Exact(gs, targets, jobs, namespaces) && Elsewhere(gs, t) && '\0' !in t.deployment
    requires Sound(jobs, namespaces) && Distinct(namespaces)
    ensures Exact(gs + TargetGroups(t, jobs, namespaces), targets + [t], jobs, namespaces)
  {
    var hs := TargetGroups(t, jobs, namespaces);
    var r, ts := gs + hs, targets + [t];
    TargetKeysDistinct(t, jobs, namespaces);
    TargetBelongs(t, jobs, namespaces);
    TargetCovers(t, jobs, namespaces);
    forall i | 0 <= i < |r| ensures Placed(r[i], ts, jobs, namespaces) {
      if i < |gs| {
        assert Placed(gs[i], targets, jobs, namespaces);
        var a :| 0 <= a < |targets| && BelongsTo(gs[i], targets[a], jobs, namespaces);
        assert ts[a] == targets[a];
      } else {
        assert BelongsTo(hs[i - |gs|], ts[|targets|], jobs, namespaces);
      }
    }
    forall a | 0 <= a < |ts| ensures Covers(r, ts[a], jobs, namespaces) {
      if a < |targets| {
        assert Covers(gs, targets[a], jobs, namespaces);
      }
      CoversMore(gs, hs, ts[a], jobs, namespaces);
    }
  }

  lemma EarlierElsewhere(gs: seq<Group>, targets: seq<Target>, n: nat, jobs: seq<Job>, namespaces: seq<string>)
    requires n < |targets| && NulFree(targets) && DistinctDeployments(targets)
    requires Exact(gs, targets[..n], jobs, namespaces)
    ensures Elsewhere(gs, targets[n])
  {
    forall i | 0 <= i < |gs| ensures '\0' !in gs[i].deployment && gs[i].deployment != targets[n].deployment {
      assert Placed(gs[i], targets[..n], jobs, namespaces);
      var a :| 0 <= a < n && BelongsTo(gs[i], targets[..n][a], jobs, namespaces);
      assert targets[..n][a] == targets[a] && gs[i].deployment == targets[a].deployment;
    }
  }

  lemma FanStep(targets: seq<Target>, n: nat, jobs: seq<Job>, namespaces: seq<string>)
    requires n == |targets| - 1 && NulFree(targets) && Elsewhere(Fan(targets[..n], jobs, namespaces), targets[n])
    ensures Fan(targets, jobs, namespaces) ==
            Fan(targets[..n], jobs, namespaces) + TargetGroups(targets[n], jobs, namespaces)
  {
    PutAllApart(Fan(targets[..n], jobs, namespaces), targets[n], jobs);
  }

  lemma PrefixTargets(targets: seq<Target>, n: nat)
    requires n < |targets| && NulFree(targets) && DistinctDeployments(targets)
    ensures NulFree(targets[..n]) && DistinctDeployments(targets[..n])
  {
  }

  /** The fan-out over distinct deployments holds exactly the groups each target needs, under distinct names. */
  lemma {:induction false} FanIsExact(targets: seq<Target>, jobs: seq<Job>, namespaces: seq<string>)
    requires NulFree(targets) && DistinctDeployments(targets) && Sound(jobs, namespaces) && Distinct(namespaces)
    ensures Exact(Fan(targets, jobs, namespaces), targets, jobs, namespaces)
  {
    if targets != [] {
      var n := |targets| - 1;
      PrefixTargets(targets, n);
      FanIsExact(targets[..n], jobs, namespaces);
      FanExtends(targets, n, jobs, namespaces, Fan(targets[..n], jobs, namespaces));
    }
  }

  lemma FanExtends(targets: seq<Target>, n: nat, jobs: seq<Job>, namespaces: seq<string>, gs: seq<Group>)
    requires n == |targets| - 1 && NulFree(targets) && DistinctDeployments(targets)
    requires Sound(jobs, namespaces) && Distinct(namespaces)
    requires gs == Fan(targets[..n], jobs, namespaces) && Exact(gs, targets[..n], jobs, namespaces)
    ensures Exact(Fan(targets, jobs, namespaces), targets, jobs, namespaces)
  {
    EarlierElsewhere(gs, targets, n, jobs, namespaces);
    FanStep(targets, n, jobs, namespaces);
    ExactMore(gs, targets[..n], targets[n], jobs, namespaces);
    assert targets[..n] + [targets[n]] == targets;
  }

  // ---------------------------------------------------------------- tasks are conserved

  lemma CountLast<T>(xs: seq<T>, x: T)
    requires xs != []
    ensures multiset(xs)[x] == multiset(xs[..|xs| - 1])[x] + if xs[|xs| - 1] == x then 1 else 0
  {
    assert xs == xs[..|xs| - 1] + [xs[|xs| - 1]];
  }

  /** How often a job occurs among the tasks queued for a deployment. */
  ghost function Copies(gs: seq<Group>, d: string, w: Job): nat {
    if gs == [] then 0 else Copies(gs[..|gs| - 1], d, w) + CopiesIn(gs[|gs| - 1], d, w)
  }

  ghost function CopiesIn(g: Group, d: string, w: Job): nat {
    if g.deployment == d then multiset(g.tasks)[w] else 0
  }

  lemma CopiesLast(gs: seq<Group>, g: Group, d: string, w: Job)
    ensures Copies(gs + [g], d, w) == Copies(gs, d, w) + CopiesIn(g, d, w)
  {
    assert (gs + [g])[..|gs|] == gs;
  }

  lemma {:induction false} CopiesAppend(gs: seq<Group>, hs: seq<Group>, d: string, w: Job)
    ensures Copies(gs + hs, d, w) == Copies(gs, d, w) + Copies(hs, d, w)
    decreases |hs|
  {
    if hs == [] {
      assert gs + hs == gs;
    } else {
      var init, last := hs[..|hs| - 1], hs[|hs| - 1];
      CopiesAppend(gs, init, d, w);
      CopiesLast(gs + init, last, d, w);
      assert gs + hs == gs + init + [last];
    }
  }

  lemma CopiesUpdate(gs: seq<Group>, i: nat, g: Group, d: string, w: Job)
    requires i < |gs|
    ensures Copies(gs[i := g], d, w) == Copies(gs, d, w) - CopiesIn(gs[i], d, w) + CopiesIn(g, d, w)
  {
    var l, r := gs[..i], gs[i + 1..];
    assert gs == l + [gs[i]] + r && gs[i := g] == l + [g] + r;
    CopiesAppend(l + [gs[i]], r, d, w);
    CopiesLast(l, gs[i], d, w);
    CopiesAppend(l + [g], r, d, w);
    CopiesLast(l, g, d, w);
  }

  lemma {:induction false} NoCopies(gs: seq<Group>, d: string, w: Job)
    requires forall i | 0 <= i < |gs| :: gs[i].deployment != d || gs[i].tasks == []
    ensures Copies(gs, d, w) == 0
  {
    if gs != [] {
      NoCopies(gs[..|gs| - 1], d, w);
    }
  }

  lemma CopiesPut(gs: seq<Group>, t: Target, jobs: seq<Job>, v: Job, w: Job)
    requires Routed(gs, t, jobs)
    ensures Copies(Put(gs, t, v), t.deployment, w) == Copies(gs, t.deployment, w) + if v == w then 1 else 0
  {
    var i := Find(gs, GroupKey(t.deployment, v.key));
    if i < |gs| {
      assert HoldsJobs(gs[i], t, jobs);
      CopiesUpdate(gs, i, gs[i].(tasks := gs[i].tasks + [v]), t.deployment, w);
    } else {
      CopiesLast(gs, NewGroup(t, v.key, Work, [v]), t.deployment, w);
    }
  }

  lemma CopiesPutNext(t: Target, jobs: seq<Job>, v: Job, w: Job)
    requires '\0' !in t.deployment
    ensures Copies(Put(PutAll([], t, jobs), t, v), t.deployment, w) ==
            Copies(PutAll([], t, jobs), t.deployment, w) + if v == w then 1 else 0
  {
    TargetRouted(t, jobs);
    CopiesPut(PutAll([], t, jobs), t, jobs, v, w);
  }

  lemma {:induction false} CopiesPutAll(t: Target, jobs: seq<Job>, w: Job)
    requires '\0' !in t.deployment
    ensures Copies(PutAll([], t, jobs), t.deployment, w) == multiset(jobs)[w]
  {
    if jobs != [] {
      var n := |jobs| - 1;
      CopiesPutAll(t, jobs[..n], w);
      CopiesPutNext(t, jobs[..n], jobs[n], w);
      CountLast(jobs, w);
    }
  }

  lemma TargetCopies(t: Target, jobs: seq<Job>, namespaces: seq<string>, d: string, w: Job)
    requires '\0' !in t.deployment
    ensures Copies(TargetGroups(t, jobs, namespaces), d, w) == if d == t.deployment then multiset(jobs)[w] else 0
  {
    TargetBelongs(t, jobs, namespaces);
    if d == t.deployment {
      CopiesAppend(PutAll([], t, jobs), Finalizers(t, namespaces), d, w);
      CopiesPutAll(t, jobs, w);
      NoCopies(Finalizers(t, namespaces), d, w);
    } else {
      NoCopies(TargetGroups(t, jobs, namespaces), d, w);
    }
  }

  ghost predicate Deploys(targets: seq<Target>, d: string) {
    exists a | 0 <= a < |targets| :: targets[a].deployment == d
  }

  lemma FanGrows(targets: seq<Target>, n: nat, jobs: seq<Job>, namespaces: seq<string>)
    requires n == |targets| - 1 && NulFree(targets) && DistinctDeployments(targets)
    requires Sound(jobs, namespaces) && Distinct(namespaces)
    ensures Fan(targets, jobs, namespaces) ==
            Fan(targets[..n], jobs, namespaces) + TargetGroups(targets[n], jobs, namespaces)
  {
    PrefixTargets(targets, n);
    FanIsExact(targets[..n], jobs, namespaces);
    EarlierElsewhere(Fan(targets[..n], jobs, namespaces), targets, n, jobs, namespaces);
    FanStep(targets, n, jobs, namespaces);
  }

  lemma DeploysLast(targets: seq<Target>, n: nat, d: string)
    requires n == |targets| - 1 && DistinctDeployments(targets)
    ensures Deploys(targets, d) <==> Deploys(targets[..n], d) || targets[n].deployment == d
    ensures !(Deploys(targets[..n], d) && targets[n].deployment == d)
  {
    assert forall a | 0 <= a < n :: targets[..n][a] == targets[a];
  }

  /** Every target gets every job as often as it is planned, however the jobs are grouped; nobody else gets any. */
  lemma {:induction false} TasksConserved(targets: seq<Target>, jobs: seq<Job>, namespaces: seq<string>,
                                          d: string, w: Job)
    requires NulFree(targets) && DistinctDeployments(targets) && Sound(jobs, namespaces) && Distinct(namespaces)
    ensures Copies(Fan(targets, jobs, namespaces), d, w) == if Deploys(targets, d) then multiset(jobs)[w] else 0
  {
    if targets != [] {
      var n := |targets| - 1;
      PrefixTargets(targets, n);
      TasksConserved(targets[..n], jobs, namespaces, d, w);
      FanGrows(targets, n, jobs, namespaces);
      CopiesAppend(Fan(targets[..n], jobs, namespaces), TargetGroups(targets[n], jobs, namespaces), d, w);
      TargetCopies(targets[n], jobs, namespaces, d, w);
      DeploysLast(targets, n, d);
    }
  }

  // ---------------------------------------------------------------- jobs

  lemma {:induction false} ChangingCopies(shards: seq<Shard>, namespace: string, s: Shard)
    ensures multiset(ChangingOf(shards, namespace))[s] ==
            if s.needsChange && s.namespace == namespace then multiset(shards)[s] else 0
  {
    if shards != [] {
      var n := |shards| - 1;
      ChangingCopies(shards[..n], namespace, s);
      CountLast(shards, s);
    }
  }

  lemma {:induction false} ChangeCopies(last: Change, ss: seq<Shard>, change: Change, shard: string)
    requires forall s <- ss :: s.needsChange && s.namespace == last.namespace
    ensures multiset(ChangeJobs(last, ss))[JobOf(change, shard)] ==
            if change == last then multiset(ss)[Shard(shard, last.namespace, true)] else 0
  {
    if ss != [] {
      var n := |ss| - 1;
      ChangeCopies(last, ss[..n], change, shard);
      assert ss == ss[..n] + [ss[n]];
      assert ChangeJobs(last, ss) == ChangeJobs(last, ss[..n]) + [JobOf(last, ss[n].shard)];
      assert ss[n] == Shard(ss[n].shard, last.namespace, true);
    }
  }

  lemma OneMore(m: nat, k: nat)
    ensures (m + 1) * k == m * k + k
    ensures m > 0 && k > 0 ==> m * k > 0
  {
  }

  /** A change is planned once for each time its shard needs changing: once per pair, if neither is listed twice. */
  lemma {:induction false} JobCopies(changes: seq<Change>, shards: seq<Shard>, change: Change, shard: string)
    ensures multiset(Jobs(changes, shards))[JobOf(change, shard)] ==
            multiset(changes)[change] * multiset(shards)[Shard(shard, change.namespace, true)]
  {
    if changes != [] {
      var init, last := changes[..|changes| - 1], changes[|changes| - 1];
      JobCopies(init, shards, change, shard);
      SortedCopies(shards, last, change, shard);
      CountLast(changes, change);
      OneMore(multiset(init)[change], multiset(shards)[Shard(shard, change.namespace, true)]);
      CountAppend(Jobs(init, shards), ChangeJobs(last, ShardsIn(shards, last.namespace)), JobOf(change, shard));
    }
  }

  lemma CountAppend<T>(xs: seq<T>, ys: seq<T>, x: T)
    ensures multiset(xs + ys)[x] == multiset(xs)[x] + multiset(ys)[x]
  {
  }

  lemma SortedCopies(shards: seq<Shard>, last: Change, change: Change, shard: string)
    ensures multiset(ChangeJobs(last, ShardsIn(shards, last.namespace)))[JobOf(change, shard)] ==
            if change == last then multiset(shards)[Shard(shard, change.namespace, true)] else 0
  {
    var ss, cs := ShardsIn(shards, last.namespace), ChangingOf(shards, last.namespace);
    SortedByName(cs);
    forall s | s in ss ensures s.needsChange && s.namespace == last.namespace {
      assert s in multiset(ss);
      ChangingCopies(shards, last.namespace, s);
    }
    ChangeCopies(last, ss, change, shard);
    ChangingCopies(shards, last.namespace, Shard(shard, last.namespace, true));
  }

  /** What a planned task says: one of the changes, on a shard of its namespace that needs it, under their key. */
  ghost predicate Plans(w: Job, changes: seq<Change>, shards: seq<Shard>) {
    && w.change in changes && Shard(w.shard, w.change.namespace, true) in shards
    && w.key == w.change.namespace + "/" + w.shard + "/" + w.change.table
  }

  lemma {:induction false} JobsArePlanned(changes: seq<Change>, shards: seq<Shard>, w: Job)
    requires w in Jobs(changes, shards)
    ensures Plans(w, changes, shards)
  {
    var init, last := changes[..|changes| - 1], changes[|changes| - 1];
    if w in Jobs(init, shards) {
      JobsArePlanned(init, shards, w);
    } else {
      var ss := ShardsIn(shards, last.namespace);
      var k :| 0 <= k < |ss| && ChangeJobs(last, ss)[k] == w;
      SortedByName(ChangingOf(shards, last.namespace));
      assert ss[k] in multiset(ss);
      ChangingCopies(shards, last.namespace, ss[k]);
      assert ss[k] == Shard(w.shard, last.namespace, true);
    }
  }

  lemma {:induction false} Selected(jobs: seq<Job>, key: string, w: Job)
    ensures w in Select(jobs, key) <==> w in jobs && w.key == key
  {
    if jobs != [] {
      var n := |jobs| - 1;
      Selected(jobs[..n], key, w);
      assert jobs == jobs[..n] + [jobs[n]];
    }
  }

  /** A key's jobs come in the order in which they are planned. */
  lemma {:induction false} SelectKeepsOrder(jobs: seq<Job>, key: string) returns (at: seq<nat>)
    ensures |at| == |Select(jobs, key)|
    ensures forall k | 0 <= k < |at| :: at[k] < |jobs| && Select(jobs, key)[k] == jobs[at[k]]
    ensures forall k, l | 0 <= k < l < |at| :: at[k] < at[l]
  {
    if jobs == [] {
      at := [];
    } else {
      var n := |jobs| - 1;
      at := SelectKeepsOrder(jobs[..n], key);
      if jobs[n].key == key {
        at := at + [n];
      }
    }
  }

  // ---------------------------------------------------------------- the rollout order

  /** Groups stand in the order of their targets, and a target's finalizers behind its work. */
  ghost predicate InRolloutOrder(gs: seq<Group>, targets: seq<Target>) {
    forall i, j, a, b | 0 <= i < j < |gs| && 0 <= a < |targets| && 0 <= b < |targets|
                        && gs[i].deployment == targets[a].deployment && gs[j].deployment == targets[b].deployment ::
      a < b || (a == b && (gs[i].kind == Finalizer ==> gs[j].kind == Finalizer))
  }

  lemma TargetOrder(t: Target, jobs: seq<Job>, namespaces: seq<string>, i: nat, j: nat)
    requires '\0' !in t.deployment && i < j < |TargetGroups(t, jobs, namespaces)|
    requires TargetGroups(t, jobs, namespaces)[i].kind == Finalizer
    ensures TargetGroups(t, jobs, namespaces)[j].kind == Finalizer
  {
    TargetRouted(t, jobs);
    var ws := PutAll([], t, jobs);
    assert i < |ws| ==> HoldsJobs(ws[i], t, jobs);
  }

  lemma {:induction false} FanDeployments(targets: seq<Target>, jobs: seq<Job>, namespaces: seq<string>, i: nat)
    requires NulFree(targets) && DistinctDeployments(targets) && Sound(jobs, namespaces) && Distinct(namespaces)
    requires i < |Fan(targets, jobs, namespaces)|
    ensures Deploys(targets, Fan(targets, jobs, namespaces)[i].deployment)
  {
    var gs := Fan(targets, jobs, namespaces);
    FanIsExact(targets, jobs, namespaces);
    assert Placed(gs[i], targets, jobs, namespaces);
    var a :| 0 <= a < |targets| && BelongsTo(gs[i], targets[a], jobs, namespaces);
    assert gs[i].deployment == targets[a].deployment;
  }

  /** The fan-out queues its groups in rollout order. */
  lemma {:induction false} FanInOrder(targets: seq<Target>, jobs: seq<Job>, namespaces: seq<string>)
    requires NulFree(targets) && DistinctDeployments(targets) && Sound(jobs, namespaces) && Distinct(namespaces)
    ensures InRolloutOrder(Fan(targets, jobs, namespaces), targets)
  {
    if targets != [] {
      var n := |targets| - 1;
      var init, last := targets[..n], targets[n];
      PrefixTargets(targets, n);
      FanInOrder(init, jobs, namespaces);
      FanGrows(targets, n, jobs, namespaces);
      TargetBelongs(last, jobs, namespaces);
      var gs, hs := Fan(init, jobs, namespaces), TargetGroups(last, jobs, namespaces);
      forall k | 0 <= k < |gs| ensures Deploys(init, gs[k].deployment) {
        FanDeployments(init, jobs, namespaces, k);
      }
      forall k, l | 0 <= k < l < |hs| && hs[k].kind == Finalizer ensures hs[l].kind == Finalizer {
        TargetOrder(last, jobs, namespaces, k, l);
      }
      var all: seq<Group> := gs + hs;
      forall i, j, a, b | 0 <= i < j < |all| && 0 <= a < |targets| && 0 <= b < |targets|
                          && all[i].deployment == targets[a].deployment && all[j].deployment == targets[b].deployment
        ensures a < b || (a == b && (all[i].kind == Finalizer ==> all[j].kind == Finalizer))
      {
        OrderedPair(targets, n, gs, hs, i, j, a, b);
      }
    }
  }

  lemma AmongFirst(targets: seq<Target>, n: nat, d: string, a: nat)
    requires n <= |targets| && DistinctDeployments(targets) && Deploys(targets[..n], d)
    requires a < |targets| && targets[a].deployment == d
    ensures a < n
  {
    var k :| 0 <= k < n && targets[..n][k].deployment == d;
    assert targets[k].deployment == d;
  }

  lemma OrderedPair(targets: seq<Target>, n: nat, gs: seq<Group>, hs: seq<Group>, i: nat, j: nat, a: nat, b: nat)
    requires n == |targets| - 1 && DistinctDeployments(targets) && InRolloutOrder(gs, targets[..n])
    requires forall k | 0 <= k < |gs| :: Deploys(targets[..n], gs[k].deployment)
    requires forall k | 0 <= k < |hs| :: hs[k].deployment == targets[n].deployment
    requires forall k, l | 0 <= k < l < |hs| && hs[k].kind == Finalizer :: hs[l].kind == Finalizer
    requires i < j < |gs + hs| && a < |targets| && b < |targets|
    requires (gs + hs)[i].deployment == targets[a].deployment && (gs + hs)[j].deployment == targets[b].deployment
    ensures a < b || (a == b && ((gs + hs)[i].kind == Finalizer ==> (gs + hs)[j].kind == Finalizer))
  {
    if i < |gs| {
      AmongFirst(targets, n, gs[i].deployment, a);
      if j < |gs| {
        AmongFirst(targets, n, gs[j].deployment, b);
        assert targets[..n][a] == targets[a] && targets[..n][b] == targets[b];
      }
    }
  }

  // ---------------------------------------------------------------- the shard gate

  /** A sharded fan-out is possible: there are changes, each has a statement, a table and a shard to run on. */
  ghost predicate Shardable(changes: seq<Change>, shards: seq<Shard>) {
    shards != [] && changes != [] && forall i | 0 <= i < |changes| :: Runnable(changes[i], shards)
  }

  ghost predicate Runnable(c: Change, shards: seq<Shard>) {
    c.ddl != "" && c.table != "" && exists s <- shards :: s.needsChange && s.namespace == c.namespace
  }

  /** The gate drops nothing: every change is planned on some shard. */
  lemma GateDropsNothing(changes: seq<Change>, shards: seq<Shard>, c: Change) returns (shard: string)
    requires Shardable(changes, shards) && c in changes
    ensures multiset(Jobs(changes, shards))[JobOf(c, shard)] > 0
  {
    assert Runnable(c, shards);
    var s :| s in shards && s.needsChange && s.namespace == c.namespace;
    shard := s.shard;
    assert s == Shard(shard, c.namespace, true);
    JobCopies(changes, shards, c, shard);
    OneMore(multiset(changes)[c], multiset(shards)[s]);
  }

  // ---------------------------------------------------------------- the procedures

  /** Changing shards grouped by namespace, each group in name order. */
  method ChangingShardsByNamespace(shards: seq<Shard>) returns (index: map<string, seq<Shard>>)
    ensures forall ns :: Lookup(index, ns) == ShardsIn(shards, ns)
  {
    var raw: map<string, seq<Shard>> := map[];
    for i := 0 to |shards|
      invariant forall ns :: Lookup(raw, ns) == ChangingOf(shards[..i], ns)
      invariant forall ns <- raw :: raw[ns] != []
    {
      var s := shards[i];
      assert shards[..i + 1][..i] == shards[..i];
      if s.needsChange {
        raw := raw[s.namespace := Lookup(raw, s.namespace) + [s]];
      }
    }
    assert shards[..|shards|] == shards;
    index := map ns | ns in raw :: SortByName(raw[ns]);
    forall ns ensures Lookup(index, ns) == ShardsIn(shards, ns) {
      assert Lookup(raw, ns) == ChangingOf(shards, ns);
    }
  }

  function Lookup(index: map<string, seq<Shard>>, ns: string): seq<Shard> {
    if ns in index then index[ns] else []
  }

  /** Namespaces whose VSchema changes, in name order. */
  method VSchemaNamespaces(plan: Plan) returns (names: seq<string>)
    ensures Ascending(names) && forall ns :: ns in names <==> ns in plan.vschema && plan.vschema[ns] != ""
  {
    names := Sorted(set ns | ns in plan.vschema && plan.vschema[ns] != "");
  }

  method CanBuildSharded(changes: seq<Change>, shards: seq<Shard>) returns (ok: bool)
    ensures ok <==> Shardable(changes, shards)
  {
    if |shards| == 0 || |changes| == 0 {
      return false;
    }
    var index := ChangingShardsByNamespace(shards);
    for i := 0 to |changes|
      invariant forall k | 0 <= k < i :: Runnable(changes[k], shards)
    {
      var c := changes[i];
      HasChangingShard(shards, c.namespace);
      if c.ddl == "" || c.table == "" || |Lookup(index, c.namespace)| == 0 {
        return false;
      }
    }
    ok := true;
  }

  lemma {:induction false} HasChangingShard(shards: seq<Shard>, ns: string)
    ensures ShardsIn(shards, ns) != [] <==> exists s <- shards :: s.needsChange && s.namespace == ns
  {
    var cs := ChangingOf(shards, ns);
    SortedByName(cs);
    assert |multiset(ShardsIn(shards, ns))| == |multiset(cs)|;
    if exists s <- shards :: s.needsChange && s.namespace == ns {
      var s :| s in shards && s.needsChange && s.namespace == ns;
      ChangingCopies(shards, ns, s);
    }
    if cs != [] {
      ChangingCopies(shards, ns, cs[0]);
      assert cs[0] in multiset(cs);
    }
  }

  /** The builder's map and the groups agree: a lookup key is mapped to the position of its work group. */
  ghost predicate Indexed(gs: seq<Group>, index: map<string, nat>) {
    forall k :: if k in index then Find(gs, k) == index[k] < |gs| else Find(gs, k) == |gs|
  }

  lemma FindSameKeys(gs: seq<Group>, hs: seq<Group>, k: string)
    requires |gs| == |hs|
    requires forall i | 0 <= i < |gs| ::
               gs[i].kind == hs[i].kind && gs[i].deployment == hs[i].deployment && gs[i].key == hs[i].key
    ensures Find(gs, k) == Find(hs, k)
  {
  }

  lemma FindLast(gs: seq<Group>, g: Group, k: string)
    ensures Find(gs + [g], k) == if Find(gs, k) < |gs| then Find(gs, k)
                                 else if g.kind == Work && GroupKey(g.deployment, g.key) == k then |gs| else |gs| + 1
  {
    var all := gs + [g];
    assert all[|gs|] == g && forall i | 0 <= i < |gs| :: all[i] == gs[i];
  }

  method AddTask(gs: seq<Group>, index: map<string, nat>, t: Target, w: Job)
    returns (r: seq<Group>, next: map<string, nat>)
    requires Indexed(gs, index)
    ensures r == Put(gs, t, w) && Indexed(r, next)
  {
    var groupKey := GroupKey(t.deployment, w.key);
    if groupKey in index {
      var i := index[groupKey];
      r, next := gs[i := gs[i].(tasks := gs[i].tasks + [w])], index;
      forall k ensures Find(r, k) == Find(gs, k) {
        FindSameKeys(r, gs, k);
      }
    } else {
      var g := NewGroup(t, w.key, Work, [w]);
      r, next := gs + [g], index[groupKey := |gs|];
      forall k ensures if k in next then Find(r, k) == next[k] < |r| else Find(r, k) == |r| {
        FindLast(gs, g, k);
      }
    }
  }

  method ValidKeyPart(value: string) returns (ok: bool)
    ensures ok <==> '/' !in value
  {
    for i := 0 to |value|
      invariant '/' !in value[..i]
    {
      if value[i] == '/' {
        return false;
      }
    }
    assert value[..|value|] == value;
    ok := true;
  }

  method ValidShardJob(c: Change, shard: string) returns (ok: bool)
    ensures ok <==> SoundJob(JobOf(c, shard))
  {
    ok := ValidKeyPart(c.namespace);
    if ok {
      ok := ValidKeyPart(shard);
    }
    if ok {
      ok := ValidKeyPart(c.table);
    }
    ok := ok && |ShardKey(c.namespace, shard, c.table)| <= KEY_MAX_LEN;
  }

  lemma {:induction false} JobsPrefix(changes: seq<Change>, shards: seq<Shard>, n: nat)
    requires n <= |changes|
    ensures Jobs(changes[..n], shards) <= Jobs(changes, shards)
    decreases |changes| - n
  {
    if n == |changes| {
      assert changes[..n] == changes;
    } else {
      JobsNext(changes, shards, n);
      JobsPrefix(changes, shards, n + 1);
    }
  }

  lemma JobsNext(changes: seq<Change>, shards: seq<Shard>, n: nat)
    requires n < |changes|
    ensures Jobs(changes[..n + 1], shards) ==
            Jobs(changes[..n], shards) + ChangeJobs(changes[n], ShardsIn(shards, changes[n].namespace))
  {
    assert changes[..n + 1][..n] == changes[..n];
  }

  lemma PutNext(gs: seq<Group>, t: Target, jobs: seq<Job>, w: Job)
    ensures PutAll(gs, t, jobs + [w]) == Put(PutAll(gs, t, jobs), t, w)
  {
    assert (jobs + [w])[..|jobs|] == jobs;
  }

  /** The work groups of one change: one job per shard, until a key is rejected. */
  method AddChange(gs: seq<Group>, index: map<string, nat>, t: Target, c: Change, ss: seq<Shard>)
    returns (ok: bool, r: seq<Group>, next: map<string, nat>)
    requires Indexed(gs, index)
    ensures ok <==> forall k | 0 <= k < |ss| :: SoundJob(JobOf(c, ss[k].shard))
    ensures ok ==> r == PutAll(gs, t, ChangeJobs(c, ss)) && Indexed(r, next)
  {
    r, next := gs, index;
    for k := 0 to |ss|
      invariant r == PutAll(gs, t, ChangeJobs(c, ss)[..k]) && Indexed(r, next)
      invariant forall j | 0 <= j < k :: SoundJob(JobOf(c, ss[j].shard))
    {
      var valid := ValidShardJob(c, ss[k].shard);
      if !valid {
        return false, r, next;
      }
      r, next := AddTask(r, next, t, JobOf(c, ss[k].shard));
      PutNext(gs, t, ChangeJobs(c, ss)[..k], ChangeJobs(c, ss)[k]);
      assert ChangeJobs(c, ss)[..k + 1] == ChangeJobs(c, ss)[..k] + [ChangeJobs(c, ss)[k]];
    }
    assert ChangeJobs(c, ss)[..|ss|] == ChangeJobs(c, ss);
    ok := true;
  }

  lemma CutLast<T>(a: seq<T>, b: seq<T>)
    requires b != []
    ensures a + b == (a + b[..|b| - 1]) + [b[|b| - 1]]
  {
  }

  lemma {:induction false} PutAllAppend(gs: seq<Group>, t: Target, a: seq<Job>, b: seq<Job>)
    ensures PutAll(gs, t, a + b) == PutAll(PutAll(gs, t, a), t, b)
    decreases |b|
  {
    if b == [] {
      assert a + b == a;
    } else {
      var init, last := b[..|b| - 1], b[|b| - 1];
      PutAllAppend(gs, t, a, init);
      PutNext(gs, t, a + init, last);
      CutLast(a, b);
    }
  }

  method AddWork(gs: seq<Group>, index: map<string, nat>, t: Target, changes: seq<Change>, ghost shards: seq<Shard>,
                 byNamespace: map<string, seq<Shard>>)
    returns (ok: bool, r: seq<Group>, next: map<string, nat>)
    requires Indexed(gs, index) && forall ns :: Lookup(byNamespace, ns) == ShardsIn(shards, ns)
    ensures ok <==> SoundJobs(Jobs(changes, shards))
    ensures ok ==> r == PutAll(gs, t, Jobs(changes, shards)) && Indexed(r, next)
  {
    r, next := gs, index;
    for n := 0 to |changes|
      invariant r == PutAll(gs, t, Jobs(changes[..n], shards)) && Indexed(r, next)
      invariant SoundJobs(Jobs(changes[..n], shards))
    {
      var c := changes[n];
      var ss := Lookup(byNamespace, c.namespace);
      ghost var done := Jobs(changes[..n], shards);
      JobsNext(changes, shards, n);
      var valid;
      valid, r, next := AddChange(r, next, t, c, ss);
      SoundMore(done, c, ss);
      if !valid {
        JobsPrefix(changes, shards, n + 1);
        SoundPrefix(Jobs(changes[..n + 1], shards), Jobs(changes, shards));
        return false, r, next;
      }
      PutAllAppend(gs, t, done, ChangeJobs(c, ss));
    }
    assert changes[..|changes|] == changes;
    ok := true;
  }

  lemma SoundMore(done: seq<Job>, c: Change, ss: seq<Shard>)
    requires SoundJobs(done)
    ensures SoundJobs(done + ChangeJobs(c, ss)) <==> forall k | 0 <= k < |ss| :: SoundJob(JobOf(c, ss[k].shard))
  {
    var all := done + ChangeJobs(c, ss);
    assert forall k | 0 <= k < |ss| :: all[|done| + k] == JobOf(c, ss[k].shard);
    assert forall j | |done| <= j < |all| :: all[j] == JobOf(c, ss[j - |done|].shard);
  }

  lemma SoundPrefix(a: seq<Job>, b: seq<Job>)
    requires a <= b
    ensures SoundJobs(b) ==> SoundJobs(a)
  {
  }

  method AddFinalizers(gs: seq<Group>, index: map<string, nat>, t: Target, names: seq<string>)
    returns (ok: bool, r: seq<Group>)
    requires Indexed(gs, index)
    ensures ok <==> forall n | 0 <= n < |names| :: SoundNamespace(names[n])
    ensures ok ==> r == gs + Finalizers(t, names) && Indexed(r, index)
  {
    r := gs;
    for n := 0 to |names|
      invariant r == gs + Finalizers(t, names[..n]) && Indexed(r, index)
      invariant forall k | 0 <= k < n :: SoundNamespace(names[k])
    {
      var valid := ValidKeyPart(names[n]);
      if !valid || |FinalizerKey(names[n])| > KEY_MAX_LEN {
        return false, r;
      }
      var g := NewGroup(t, FinalizerKey(names[n]), Finalizer, []);
      forall k ensures if k in index then Find(r + [g], k) == index[k] < |r| + 1 else Find(r + [g], k) == |r| + 1 {
        FindLast(r, g, k);
      }
      r := r + [g];
      assert Finalizers(t, names[..n + 1]) == Finalizers(t, names[..n]) + [g];
    }
    assert names[..|names|] == names;
    ok := true;
  }

  /** The sharded fan-out: rejected exactly when some key part holds the delimiter or some key is too long. */
  method BuildSharded(plan: Plan, changes: seq<Change>, targets: seq<Target>)
    returns (r: Result<seq<Group>>, names: seq<string>)
    ensures Ascending(names) && forall ns :: ns in names <==> ns in plan.vschema && plan.vschema[ns] != ""
    ensures r.Ok? <==> targets == [] || Sound(Jobs(changes, plan.shards), names)
    ensures r.Ok? ==> r.value == Fan(targets, Jobs(changes, plan.shards), names)
  {
    var byNamespace := ChangingShardsByNamespace(plan.shards);
    names := VSchemaNamespaces(plan);
    var groups: seq<Group>, index: map<string, nat> := [], map[];
    for a := 0 to |targets|
      invariant groups == Fan(targets[..a], Jobs(changes, plan.shards), names) && Indexed(groups, index)
      invariant a > 0 ==> Sound(Jobs(changes, plan.shards), names)
    {
      var t := targets[a];
      assert targets[..a + 1][..a] == targets[..a];
      var ok;
      ok, groups, index := AddWork(groups, index, t, changes, plan.shards, byNamespace);
      if !ok {
        return Err, names;
      }
      ok, groups := AddFinalizers(groups, index, t, names);
      if !ok {
        return Err, names;
      }
    }
    assert targets[..|targets|] == targets;
    r := Ok(groups);
  }

  /** One group per target holding every change, without keys. */
  ghost predicate Whole(groups: seq<Group>, plan: Plan, changes: seq<Change>, targets: seq<Target>) {
    && |groups| == |targets|
    && forall a | 0 <= a < |targets| ::
         && groups[a].deployment == targets[a].deployment && groups[a].target == targets[a].target
         && groups[a].kind == Work && groups[a].key == ""
         && |groups[a].tasks| == |changes|
         && (forall i | 0 <= i < |changes| :: groups[a].tasks[i] == Job("", changes[i], ""))
         && (groups[a].taskless <==>
               |targets| == 1 && changes == [] && exists ns <- plan.vschema :: plan.vschema[ns] != "")
  }

  /** One group per target with every change, when the plan is not sharded. */
  method BuildUnsharded(plan: Plan, changes: seq<Change>, targets: seq<Target>) returns (groups: seq<Group>)
    ensures Whole(groups, plan, changes, targets)
  {
    groups := [];
    var namespaces := VSchemaNamespaces(plan);
    var taskless := |targets| == 1 && |changes| == 0 && |namespaces| > 0;
    assert |namespaces| > 0 <==> exists ns <- plan.vschema :: plan.vschema[ns] != "" by {
      if |namespaces| > 0 { assert namespaces[0] in namespaces; }
    }
    for a := 0 to |targets|
      invariant |groups| == a
      invariant forall b | 0 <= b < a :: groups[b] ==
                  Group(targets[b].deployment, targets[b].target, "", Work,
                        seq(|changes|, i requires 0 <= i < |changes| => Job("", changes[i], "")), taskless)
    {
      var tasks := seq(|changes|, i requires 0 <= i < |changes| => Job("", changes[i], ""));
      groups := groups + [Group(targets[a].deployment, targets[a].target, "", Work, tasks, taskless)];
    }
  }

  /** No key part of the plan holds the delimiter and every key fits its column. */
  ghost predicate SoundPlan(plan: Plan, changes: seq<Change>) {
    SoundJobs(Jobs(changes, plan.shards)) && forall ns <- plan.vschema | plan.vschema[ns] != "" :: SoundNamespace(ns)
  }

  lemma SoundNames(plan: Plan, changes: seq<Change>, names: seq<string>)
    requires forall ns :: ns in names <==> ns in plan.vschema && plan.vschema[ns] != ""
    ensures Sound(Jobs(changes, plan.shards), names) <==> SoundPlan(plan, changes)
  {
    assert forall n | 0 <= n < |names| :: names[n] in names;
  }

  /** How often a deployment has to run a change on a shard. */
  ghost function Planned(targets: seq<Target>, changes: seq<Change>, shards: seq<Shard>,
                         d: string, c: Change, shard: string): nat
  {
    if Deploys(targets, d)
    then multiset(changes)[c] * multiset(shards)[Shard(shard, c.namespace, true)]
    else 0
  }

  /** Each deployed target queues a change once for each time its shard needs it, and nobody else queues it. */
  ghost predicate Conserved(gs: seq<Group>, targets: seq<Target>, changes: seq<Change>, shards: seq<Shard>) {
    forall d, c, shard :: Copies(gs, d, JobOf(c, shard)) == Planned(targets, changes, shards, d, c, shard)
  }

  lemma FanCopies(targets: seq<Target>, changes: seq<Change>, shards: seq<Shard>, names: seq<string>,
                  d: string, c: Change, shard: string)
    requires NulFree(targets) && DistinctDeployments(targets) && Sound(Jobs(changes, shards), names) && Distinct(names)
    ensures Copies(Fan(targets, Jobs(changes, shards), names), d, JobOf(c, shard)) ==
            Planned(targets, changes, shards, d, c, shard)
  {
    TasksConserved(targets, Jobs(changes, shards), names, d, JobOf(c, shard));
    JobCopies(changes, shards, c, shard);
  }

  lemma FanConserves(targets: seq<Target>, changes: seq<Change>, shards: seq<Shard>, names: seq<string>, gs: seq<Group>)
    requires NulFree(targets) && DistinctDeployments(targets) && Sound(Jobs(changes, shards), names) && Distinct(names)
    requires gs == Fan(targets, Jobs(changes, shards), names)
    ensures Conserved(gs, targets, changes, shards)
  {
    forall d, c, shard
      ensures Copies(gs, d, JobOf(c, shard)) == Planned(targets, changes, shards, d, c, shard)
    {
      FanCopies(targets, changes, shards, names, d, c, shard);
    }
  }

  /**
   What every queued group of a sharded fan-out says: its target's address, and either planned tasks of its one key or,
   for a VSchema change, the namespace's finalizer without tasks.
   */
  ghost predicate Queued(g: Group, plan: Plan, changes: seq<Change>, targets: seq<Target>) {
    && (exists a | 0 <= a < |targets| :: AddressedTo(g, targets[a]))
    && (if g.kind == Work then
          g.tasks != [] && forall w <- g.tasks :: w.key == g.key && Plans(w, changes, plan.shards)
        else
          g.tasks == [] && exists ns <- plan.vschema :: plan.vschema[ns] != "" && g.key == ns + "/group_finalizer")
  }

  lemma TasksArePlanned(g: Group, t: Target, changes: seq<Change>, shards: seq<Shard>)
    requires HoldsJobs(g, t, Jobs(changes, shards))
    ensures forall w <- g.tasks :: w.key == g.key && Plans(w, changes, shards)
  {
    forall w | w in g.tasks ensures w.key == g.key && Plans(w, changes, shards) {
      Selected(Jobs(changes, shards), g.key, w);
      JobsArePlanned(changes, shards, w);
    }
  }

  lemma GroupIsQueued(g: Group, plan: Plan, changes: seq<Change>, targets: seq<Target>, names: seq<string>)
    requires forall ns :: ns in names <==> ns in plan.vschema && plan.vschema[ns] != ""
    requires Placed(g, targets, Jobs(changes, plan.shards), names)
    ensures Queued(g, plan, changes, targets)
  {
    var a :| 0 <= a < |targets| && BelongsTo(g, targets[a], Jobs(changes, plan.shards), names);
    assert AddressedTo(g, targets[a]);
    if g.kind == Work {
      TasksArePlanned(g, targets[a], changes, plan.shards);
    } else {
      var n :| 0 <= n < |names| && g.key == FinalizerKey(names[n]);
      assert names[n] in names;
    }
  }

  /** The fan-out's entry: sharded when supported and possible, refused exactly for an unsound sharded plan. */
  method BuildApplyOperationGroups(plan: Plan, changes: seq<Change>, targets: seq<Target>, supported: bool)
    returns (r: Result<seq<Group>>, sharded: bool)
    ensures sharded <==> r.Ok? && supported && Shardable(changes, plan.shards)
    ensures r.Err? <==> supported && Shardable(changes, plan.shards) && targets != [] && !SoundPlan(plan, changes)
    ensures r.Ok? && !sharded ==> Whole(r.value, plan, changes, targets)
    ensures sharded && NulFree(targets) && DistinctDeployments(targets) ==>
              Conserved(r.value, targets, changes, plan.shards)
    ensures sharded && NulFree(targets) && DistinctDeployments(targets) ==>
              exists names ::
                && Ascending(names) && (forall ns :: ns in names <==> ns in plan.vschema && plan.vschema[ns] != "")
                && Exact(r.value, targets, Jobs(changes, plan.shards), names)
    ensures sharded && NulFree(targets) && DistinctDeployments(targets) ==>
              forall i | 0 <= i < |r.value| :: Queued(r.value[i], plan, changes, targets)
    ensures r.Ok? && NulFree(targets) && DistinctDeployments(targets) ==> InRolloutOrder(r.value, targets)
  {
    var possible := CanBuildSharded(changes, plan.shards);
    if supported && possible {
      var names;
      r, names := BuildSharded(plan, changes, targets);
      sharded := r.Ok?;
      SoundNames(plan, changes, names);
      if targets == [] {
        assert Exact([], targets, Jobs(changes, plan.shards), names);
      } else if r.Ok? && NulFree(targets) && DistinctDeployments(targets) {
        AscendingDistinct(names);
        FanIsExact(targets, Jobs(changes, plan.shards), names);
        FanConserves(targets, changes, plan.shards, names, r.value);
        FanInOrder(targets, Jobs(changes, plan.shards), names);
        forall i | 0 <= i < |r.value| ensures Queued(r.value[i], plan, changes, targets) {
          GroupIsQueued(r.value[i], plan, changes, targets, names);
        }
      }
      return;
    }
    var groups := BuildUnsharded(plan, changes, targets);
    r, sharded := Ok(groups), false;
  }

  // ---------------------------------------------------------------- from configuration to queue

  /** Every group is queued for one of the targets. */
  ghost predicate Addressed(gs: seq<Group>, targets: seq<Target>) {
    forall i | 0 <= i < |gs| :: HasAddress(gs[i], targets)
  }

  ghost predicate HasAddress(g: Group, targets: seq<Target>) {
    exists a | 0 <= a < |targets| :: g.deployment == targets[a].deployment && g.target == targets[a].target
  }

  /** Either form of fan-out queues groups for its targets alone. */
  lemma FannedOutIsAddressed(gs: seq<Group>, plan: Plan, changes: seq<Change>, targets: seq<Target>)
    requires Whole(gs, plan, changes, targets) || forall i | 0 <= i < |gs| :: Queued(gs[i], plan, changes, targets)
    ensures Addressed(gs, targets)
  {
    forall i | 0 <= i < |gs| ensures HasAddress(gs[i], targets) {
      if Whole(gs, plan, changes, targets) {
        assert gs[i].deployment == targets[i].deployment;
      } else {
        assert Queued(gs[i], plan, changes, targets);
        var a :| 0 <= a < |targets| && AddressedTo(gs[i], targets[a]);
      }
    }
  }

  /**
   In a validated configuration, every group queued for an environment names one of its deployments, carries the target
   configured for that deployment, and dispatches to the backend configured for it.
   */
  lemma QueuedAsConfigured(c: Routing.Config, fallback: bool, name: string, env: string, targets: seq<Target>, g: Group)
    requires Routing.Valid(c) && name in c.databases && env in c.databases[name].environments && name != ""
    requires Routing.Resolves(targets, name, c.databases[name], c.databases[name].environments[env])
    requires HasAddress(g, targets)
    ensures Routing.RunsAsConfigured(c, fallback, name, env, g.deployment, g.target)
  {
    var a :| 0 <= a < |targets| && g.deployment == targets[a].deployment && g.target == targets[a].target;
    Routing.TargetRunsAsConfigured(c, fallback, name, env, targets[a]);
  }
}
