/**
 Routing configuration: which configurations Validate accepts, what a database and
 environment resolve to, and which backend a deployment dispatches to.
 */
module Routing {
  import opened ApplyRows
  import opened Names

  /** `dsn`: a local DSN is configured in one of its two forms; `dsnOk`: its own fields are consistent. */
  datatype Environment = Environment(dsn: bool, dsnOk: bool, target: string, deployment: string,
                                     deployments: Option<map<string, string>>, order: seq<string>,
                                     cutoverPolicy: string, onFailure: string)

  datatype Database = Database(kind: string, environments: map<string, Environment>)

  /** `tern` maps a deployment to its endpoint address per environment. */
  datatype Config = Config(databases: map<string, Database>, tern: map<string, map<string, string>>, resolver: bool)

  datatype Target = Target(kind: string, deployment: string, target: string)

  const DEFAULT_DEPLOYMENT := "default"

  // ---------------------------------------------------------------- what is accepted

  /** The order lists every deployment exactly once. */
  ghost predicate IsOrderOf(order: seq<string>, keys: set<string>) {
    Distinct(order) && (forall d :: d in order <==> d in keys) && "" !in keys
  }

  predicate HasEndpoint(tern: map<string, map<string, string>>, deployment: string, env: string) {
    deployment in tern && env in tern[deployment] && tern[deployment][env] != ""
  }

  predicate Scalar(e: Environment) {
    e.target != "" || e.deployment != ""
  }

  ghost predicate ValidMap(c: Config, env: string, e: Environment) {
    && e.deployments.Some? && e.deployments.value != map[]
    && (e.order != [] ==> IsOrderOf(e.order, e.deployments.value.Keys))
    && forall d <- e.deployments.value :: ValidDeployment(c, env, d, e.deployments.value[d])
  }

  predicate ValidDeployment(c: Config, env: string, deployment: string, target: string) {
    deployment != "" && target != "" && HasEndpoint(c.tern, deployment, env)
  }

  predicate PoliciesOk(e: Environment) {
    && (e.order != [] || e.cutoverPolicy != "" || e.onFailure != "" ==> e.deployments.Some?)
    && e.cutoverPolicy in {"", "rolling", "barrier"} && e.onFailure in {"", "halt", "continue"}
  }

  /** Exactly one of the three routing forms, and that one complete. */
  ghost predicate ValidEnvironment(c: Config, env: string, e: Environment) {
    && PoliciesOk(e)
    && (|| (e.dsn && e.dsnOk && !Scalar(e) && e.deployments.None?)
        || (!e.dsn && !Scalar(e) && ValidMap(c, env, e))
        || (!e.dsn && e.deployments.None? && e.target != "" && ValidDeployment(c, env, e.deployment, e.target)))
  }

  ghost predicate ValidDatabase(c: Config, db: Database) {
    && db.kind in {"mysql", "vitess", "strata"} && db.environments != map[]
    && forall env <- db.environments :: ValidEnvironment(c, env, db.environments[env])
  }

  /** A local database and a remote deployment of the same name would share a route. */
  predicate Collides(c: Config, name: string, env: string)
    requires name in c.databases && env in c.databases[name].environments
  {
    c.databases[name].environments[env].dsn && HasEndpoint(c.tern, name, env)
  }

  ghost predicate ValidEndpoints(endpoints: map<string, string>) {
    endpoints != map[] && forall env <- endpoints :: endpoints[env] != ""
  }

  ghost predicate Valid(c: Config) {
    && (c.databases != map[] || c.resolver)
    && (forall name <- c.databases :: ValidDatabase(c, c.databases[name]))
    && (forall name <- c.databases :: forall env <- c.databases[name].environments :: !Collides(c, name, env))
    && (forall d <- c.tern :: ValidEndpoints(c.tern[d]))
  }

  // ---------------------------------------------------------------- the validators

  /** A map's keys are visited in no particular order; one of them is taken out. */
  method Take(keys: set<string>) returns (key: string, rest: set<string>)
    requires keys != {}
    ensures key in keys && rest == keys - {key}
  {
    key :| key in keys;
    rest := keys - {key};
  }

  method ValidateDeploymentOrder(deployments: map<string, string>, order: seq<string>) returns (ok: bool)
    ensures ok <==> IsOrderOf(order, deployments.Keys)
  {
    if "" in deployments {
      return false;
    }
    var seen: set<string> := {};
    for i := 0 to |order|
      invariant Distinct(order[..i]) && (forall d :: d in seen <==> d in order[..i]) && seen <= deployments.Keys
    {
      var d := order[i];
      if d == "" || d in seen || d !in deployments {
        assert d in order;
        return false;
      }
      seen := seen + {d};
    }
    assert order[..|order|] == order;
    ok := deployments.Keys <= seen;
    if !ok {
      var d :| d in deployments.Keys && d !in seen;
      assert d !in order;
    }
  }

  method ValidateMap(c: Config, env: string, e: Environment) returns (ok: bool)
    requires e.deployments.Some?
    ensures ok <==> ValidMap(c, env, e)
  {
    var deployments := e.deployments.value;
    if deployments == map[] {
      return false;
    }
    if |e.order| > 0 {
      var ordered := ValidateDeploymentOrder(deployments, e.order);
      if !ordered {
        return false;
      }
    }
    var left := deployments.Keys;
    while left != {}
      invariant left <= deployments.Keys
      invariant forall d | d in deployments.Keys - left :: ValidDeployment(c, env, d, deployments[d])
    {
      var d;
      d, left := Take(left);
      if d == "" || deployments[d] == "" || !HasEndpoint(c.tern, d, env) {
        return false;
      }
    }
    ok := true;
  }

  method ValidateEnvironment(c: Config, env: string, e: Environment) returns (ok: bool)
    ensures ok <==> ValidEnvironment(c, env, e)
  {
    var mapped := e.deployments.Some?;
    if |e.order| > 0 && !mapped {
      return false;
    }
    if e.cutoverPolicy != "" && (!mapped || (e.cutoverPolicy != "rolling" && e.cutoverPolicy != "barrier")) {
      return false;
    }
    if e.onFailure != "" && (!mapped || (e.onFailure != "halt" && e.onFailure != "continue")) {
      return false;
    }
    if e.dsn && (Scalar(e) || mapped) {
      return false;
    }
    if Scalar(e) && mapped {
      return false;
    }
    if e.dsn {
      return e.dsnOk;
    }
    if mapped {
      ok := ValidateMap(c, env, e);
      return;
    }
    ok := e.target != "" && e.deployment != "" && HasEndpoint(c.tern, e.deployment, env);
  }

  method ValidateDatabase(c: Config, db: Database) returns (ok: bool)
    ensures ok <==> ValidDatabase(c, db)
  {
    if db.kind != "mysql" && db.kind != "vitess" && db.kind != "strata" {
      return false;
    }
    if db.environments == map[] {
      return false;
    }
    var left := db.environments.Keys;
    while left != {}
      invariant left <= db.environments.Keys
      invariant forall env | env in db.environments.Keys - left :: ValidEnvironment(c, env, db.environments[env])
    {
      var env;
      env, left := Take(left);
      var valid := ValidateEnvironment(c, env, db.environments[env]);
      if !valid {
        return false;
      }
    }
    ok := true;
  }

  method ValidateNoCollision(c: Config) returns (ok: bool)
    ensures ok <==>
            forall name <- c.databases :: forall env <- c.databases[name].environments :: !Collides(c, name, env)
  {
    var names := c.databases.Keys;
    while names != {}
      invariant names <= c.databases.Keys
      invariant forall name | name in c.databases.Keys - names ::
                  forall env <- c.databases[name].environments :: !Collides(c, name, env)
    {
      var name;
      name, names := Take(names);
      var envs := c.databases[name].environments.Keys;
      while envs != {}
        invariant envs <= c.databases[name].environments.Keys
        invariant forall env | env in c.databases[name].environments.Keys - envs :: !Collides(c, name, env)
      {
        var env;
        env, envs := Take(envs);
        if Collides(c, name, env) {
          return false;
        }
      }
    }
    ok := true;
  }

  method ValidateTern(c: Config) returns (ok: bool)
    ensures ok <==> forall d <- c.tern :: ValidEndpoints(c.tern[d])
  {
    var left := c.tern.Keys;
    while left != {}
      invariant left <= c.tern.Keys
      invariant forall d | d in c.tern.Keys - left :: ValidEndpoints(c.tern[d])
    {
      var d;
      d, left := Take(left);
      if c.tern[d] == map[] {
        return false;
      }
      var envs := c.tern[d].Keys;
      while envs != {}
        invariant envs <= c.tern[d].Keys
        invariant forall env | env in c.tern[d].Keys - envs :: c.tern[d][env] != ""
      {
        var env;
        env, envs := Take(envs);
        if c.tern[d][env] == "" {
          return false;
        }
      }
    }
    ok := true;
  }

  /** The routing part of the server configuration's validation. */
  method Validate(c: Config) returns (ok: bool)
    ensures ok <==> Valid(c)
  {
    if c.databases == map[] && !c.resolver {
      return false;
    }
    var left := c.databases.Keys;
    while left != {}
      invariant left <= c.databases.Keys
      invariant forall name | name in c.databases.Keys - left :: ValidDatabase(c, c.databases[name])
    {
      var name;
      name, left := Take(left);
      var valid := ValidateDatabase(c, c.databases[name]);
      if !valid {
        return false;
      }
    }
    ok := ValidateNoCollision(c);
    if ok {
      ok := ValidateTern(c);
    }
  }

  // ---------------------------------------------------------------- resolution

  /** The deployments an environment names, with their targets. */
  function Configured(name: string, e: Environment): map<string, string> {
    if e.dsn then map[name := name]
    else if e.deployments.Some? then e.deployments.value
    else map[e.deployment := e.target]
  }

  /** Environments the resolver answers for; every valid one is among them. */
  ghost predicate Resolvable(e: Environment) {
    || e.dsn
    || (e.deployments.Some? && e.deployments.value != map[] && "" !in e.deployments.value
        && (e.order != [] ==> IsOrderOf(e.order, e.deployments.value.Keys))
        && forall d <- e.deployments.value :: e.deployments.value[d] != "")
    || (e.deployments.None? && e.target != "" && e.deployment != "")
  }

  /** The targets list exactly the configured deployments, each once, in rollout order. */
  ghost predicate Resolves(targets: seq<Target>, name: string, db: Database, e: Environment) {
    && targets != []
    && (forall i, j | 0 <= i < j < |targets| :: targets[i].deployment != targets[j].deployment)
    && (forall i | 0 <= i < |targets| :: Configures(targets[i], name, db, e))
    && (forall d <- Configured(name, e) :: exists i | 0 <= i < |targets| :: targets[i].deployment == d)
    && (!e.dsn && e.deployments.Some? ==> Arranged(targets, e.order))
  }

  predicate Configures(t: Target, name: string, db: Database, e: Environment) {
    t.kind == db.kind && t.deployment in Configured(name, e) && t.target == Configured(name, e)[t.deployment]
  }

  ghost predicate Arranged(targets: seq<Target>, order: seq<string>) {
    if order != [] then |targets| == |order| && forall i | 0 <= i < |targets| :: targets[i].deployment == order[i]
    else forall i, j | 0 <= i < j < |targets| :: Before(targets[i].deployment, targets[j].deployment)
  }

  lemma LoneTarget(t: Target, name: string, db: Database, e: Environment)
    requires Configured(name, e) == map[t.deployment := t.target] && t.kind == db.kind && (e.dsn || e.deployments.None?)
    ensures Resolves([t], name, db, e)
  {
    assert [t][0].deployment == t.deployment;
  }

  method OrderedDeploymentKeys(deployments: map<string, string>, order: seq<string>) returns (keys: Option<seq<string>>)
    ensures keys.Some? <==> "" !in deployments && (order != [] ==> IsOrderOf(order, deployments.Keys))
    ensures keys.Some? ==> IsOrderOf(keys.value, deployments.Keys)
    ensures keys.Some? ==> if order != [] then keys.value == order else Ascending(keys.value)
  {
    if "" in deployments {
      return None;
    }
    if |order| == 0 {
      var sorted := Sorted(deployments.Keys);
      AscendingDistinct(sorted);
      return Some(sorted);
    }
    var ok := ValidateDeploymentOrder(deployments, order);
    return if ok then Some(order) else None;
  }

  /** One target per key, at the key's configured, nonempty address. */
  ghost predicate Routes(out: seq<Target>, keys: seq<string>, kind: string, deployments: map<string, string>) {
    |out| == |keys| && forall k | 0 <= k < |keys| ::
      && keys[k] in deployments && deployments[keys[k]] != ""
      && out[k] == Target(kind, keys[k], deployments[keys[k]])
  }

  lemma RoutesEach(out: seq<Target>, keys: seq<string>, kind: string, deployments: map<string, string>, d: string)
    requires Routes(out, keys, kind, deployments) && d in keys
    ensures d in deployments && deployments[d] != "" && exists i | 0 <= i < |out| :: out[i].deployment == d
  {
    var i :| 0 <= i < |keys| && keys[i] == d;
    assert out[i].deployment == d;
  }

  lemma OrderResolves(keys: seq<string>, out: seq<Target>, name: string, db: Database, e: Environment)
    requires !e.dsn && e.deployments.Some? && e.deployments.value != map[] && IsOrderOf(keys, e.deployments.value.Keys)
    requires if e.order != [] then keys == e.order else Ascending(keys)
    requires Routes(out, keys, db.kind, e.deployments.value)
    ensures Resolvable(e) && Resolves(out, name, db, e)
  {
    var deployments := e.deployments.value;
    var some :| some in deployments;
    assert some in keys;
    forall d | d in deployments ensures deployments[d] != "" && exists i | 0 <= i < |out| :: out[i].deployment == d {
      RoutesEach(out, keys, db.kind, deployments, d);
    }
  }

  method ResolveMap(name: string, db: Database, e: Environment) returns (r: Option<seq<Target>>)
    requires !e.dsn && e.deployments.Some?
    ensures r.Some? <==> Resolvable(e)
    ensures r.Some? ==> Resolves(r.value, name, db, e)
  {
    var deployments := e.deployments.value;
    if deployments == map[] {
      return None;
    }
    var keys := OrderedDeploymentKeys(deployments, e.order);
    if keys.None? {
      return None;
    }
    var out: seq<Target> := [];
    for i := 0 to |keys.value|
      invariant Routes(out, keys.value[..i], db.kind, deployments)
    {
      var d := keys.value[i];
      assert d in keys.value;
      if deployments[d] == "" {
        return None;
      }
      out := out + [Target(db.kind, d, deployments[d])];
    }
    OrderResolves(keys.value, out, name, db, e);
    r := Some(out);
  }

  method ResolveDatabaseTargets(c: Config, name: string, env: string) returns (r: Option<seq<Target>>)
    ensures r.Some? <==> name in c.databases && env in c.databases[name].environments
                         && Resolvable(c.databases[name].environments[env])
    ensures r.Some? ==> Resolves(r.value, name, c.databases[name], c.databases[name].environments[env])
    ensures r.Some? ==>
              var db := c.databases[name];
              var e := db.environments[env];
              if e.dsn then r.value == [Target(db.kind, name, name)]
              else if e.deployments.None? then r.value == [Target(db.kind, e.deployment, e.target)]
              else
                forall i | 0 <= i < |r.value| ::
                     && r.value[i].kind == db.kind && r.value[i].deployment in e.deployments.value
                     && r.value[i].target == e.deployments.value[r.value[i].deployment]
  {
    if name !in c.databases || env !in c.databases[name].environments {
      return None;
    }
    var db := c.databases[name];
    var e := db.environments[env];
    if e.dsn {
      LoneTarget(Target(db.kind, name, name), name, db, e);
      return Some([Target(db.kind, name, name)]);
    }
    if e.deployments.Some? {
      r := ResolveMap(name, db, e);
      return;
    }
    if e.target == "" || e.deployment == "" {
      return None;
    }
    LoneTarget(Target(db.kind, e.deployment, e.target), name, db, e);
    return Some([Target(db.kind, e.deployment, e.target)]);
  }

  // ---------------------------------------------------------------- dispatch

  datatype Backend = Local(database: string, environment: string) | Remote(address: string) | Fallback

  /** The lookup without its cache; NotFound is every error. */
  datatype Route = NotFound | To(backend: Backend, cached: bool)

  function Named(deployment: string): string {
    if deployment == "" then DEFAULT_DEPLOYMENT else deployment
  }

  function RouteOf(c: Config, fallback: bool, deployment: string, env: string): Route {
    var d := Named(deployment);
    if d in c.databases && env in c.databases[d].environments && c.databases[d].environments[env].dsn
    then To(Local(d, env), true)
    else if d !in c.tern || env !in c.tern[d] then if fallback then To(Fallback, false) else NotFound
    else if c.tern[d][env] == "" then NotFound
    else To(Remote(c.tern[d][env]), true)
  }

  /** In a validated configuration every configured deployment dispatches to the backend its environment names. */
  lemma DispatchesAsNamed(c: Config, fallback: bool, name: string, env: string, t: Target)
    requires Valid(c) && name in c.databases && env in c.databases[name].environments && name != ""
    requires Configures(t, name, c.databases[name], c.databases[name].environments[env])
    ensures var e := c.databases[name].environments[env];
            if e.dsn then RouteOf(c, fallback, t.deployment, env) == To(Local(name, env), true)
            else HasEndpoint(c.tern, t.deployment, env)
                 && RouteOf(c, fallback, t.deployment, env) == To(Remote(c.tern[t.deployment][env]), true)
  {
    var db := c.databases[name];
    assert ValidDatabase(c, db);
    assert ValidEnvironment(c, env, db.environments[env]);
    if !db.environments[env].dsn {
      assert ValidDeployment(c, env, t.deployment, t.target);
      if t.deployment in c.databases && env in c.databases[t.deployment].environments {
        assert !Collides(c, t.deployment, env);
      }
    }
  }

  /** The deployment and target are configured for the environment, and dispatch to the backend it names. */
  ghost predicate RunsAsConfigured(c: Config, fallback: bool, name: string, env: string,
                                   deployment: string, target: string)
    requires name in c.databases && env in c.databases[name].environments
  {
    var e := c.databases[name].environments[env];
    if e.dsn then
      deployment == target == name && RouteOf(c, fallback, deployment, env) == To(Local(name, env), true)
    else
      && (if e.deployments.Some? then deployment in e.deployments.value && target == e.deployments.value[deployment]
          else deployment == e.deployment && target == e.target)
      && deployment in c.tern && env in c.tern[deployment] && c.tern[deployment][env] != ""
      && RouteOf(c, fallback, deployment, env) == To(Remote(c.tern[deployment][env]), true)
  }

  lemma TargetRunsAsConfigured(c: Config, fallback: bool, name: string, env: string, t: Target)
    requires Valid(c) && name in c.databases && env in c.databases[name].environments && name != ""
    requires Configures(t, name, c.databases[name], c.databases[name].environments[env])
    ensures RunsAsConfigured(c, fallback, name, env, t.deployment, t.target)
  {
    DispatchesAsNamed(c, fallback, name, env, t);
  }

  /** What each answer of the lookup means; an unnamed deployment is the default one. */
  lemma RouteIff(c: Config, fallback: bool, deployment: string, env: string)
    ensures var d := if deployment == "" then "default" else deployment;
            var local := d in c.databases && env in c.databases[d].environments && c.databases[d].environments[env].dsn;
            var listed := d in c.tern && env in c.tern[d];
            match RouteOf(c, fallback, deployment, env)
            case NotFound => !local && if listed then c.tern[d][env] == "" else !fallback
            case To(Local(database, environment), cached) => local && database == d && environment == env && cached
            case To(Remote(address), cached) => !local && listed && c.tern[d][env] == address != "" && cached
            case To(Fallback, cached) => !local && !listed && fallback && !cached
  {
  }

  /** Every valid environment resolves. */
  lemma ValidResolves(c: Config, name: string, env: string)
    requires Valid(c) && name in c.databases && env in c.databases[name].environments
    ensures Resolvable(c.databases[name].environments[env])
  {
    var db := c.databases[name];
    assert ValidDatabase(c, db);
    var e := db.environments[env];
    assert ValidEnvironment(c, env, e);
    if !e.dsn && e.deployments.Some? {
      assert forall d <- e.deployments.value :: ValidDeployment(c, env, d, e.deployments.value[d]);
    }
  }

  // ---------------------------------------------------------------- the client cache

  function CacheKey(deployment: string, env: string): string {
    Named(deployment) + "/" + env
  }

  /**
   Two routes share a cache key exactly when one's environment swallowed a "/"-separated tail of the other's
   deployment.
   */
  ghost predicate Swallows(d: string, e: string, d': string, e': string) {
    exists x :: d' == d + "/" + x && e == x + "/" + e'
  }

  lemma SameKeyIff(d: string, e: string, d': string, e': string)
    requires d != "" && d' != ""
    ensures CacheKey(d, e) == CacheKey(d', e') <==>
            (d == d' && e == e') || Swallows(d, e, d', e') || Swallows(d', e', d, e)
  {
    if CacheKey(d, e) == CacheKey(d', e') {
      if |d| == |d'| {
        SameLengthSplit(d, e, d', e');
      } else if |d| < |d'| {
        TailSplit(d, e, d', e');
      } else {
        TailSplit(d', e', d, e);
      }
    }
    forall x | d' == d + "/" + x && e == x + "/" + e' ensures CacheKey(d, e) == CacheKey(d', e') {
      assert d + "/" + (x + "/" + e') == (d + "/" + x) + "/" + e';
    }
    forall x | d == d' + "/" + x && e' == x + "/" + e ensures CacheKey(d, e) == CacheKey(d', e') {
      assert d' + "/" + (x + "/" + e) == (d' + "/" + x) + "/" + e;
    }
  }

  lemma SameLengthSplit(d: string, e: string, d': string, e': string)
    requires |d| == |d'| && d + "/" + e == d' + "/" + e'
    ensures d == d' && e == e'
  {
    var k := d + "/" + e;
    assert d == k[..|d|] && d' == k[..|d|] && e == k[|d| + 1..] && e' == k[|d| + 1..];
  }

  lemma TailSplit(d: string, e: string, d': string, e': string)
    requires |d| < |d'| && d + "/" + e == d' + "/" + e'
    ensures Swallows(d, e, d', e')
  {
    var k := d + "/" + e;
    var x := d'[|d| + 1..];
    assert d == k[..|d|] && d' == k[..|d'|] && d == d'[..|d|];
    assert d'[|d|] == k[|d|] == '/';
    assert d' == d + "/" + x;
    assert e == k[|d| + 1..] && e' == k[|d'| + 1..];
    assert e == x + "/" + e';
  }

  lemma SlashFreeKeys(d: string, e: string, d': string, e': string)
    requires '/' !in e && '/' !in e' && CacheKey(d, e) == CacheKey(d', e')
    ensures Named(d) == Named(d') && e == e'
  {
    var n, n' := Named(d), Named(d');
    SameKeyIff(n, e, n', e');
    forall x, y: string, z | z == x + "/" + y ensures z[|x|] == '/' {
    }
  }

  class Clients {
    const config: Config
    const fallback: bool
    var cache: map<string, Backend>

    constructor (c: Config, fallback: bool)
      ensures config == c && this.fallback == fallback && cache == map[]
    {
      config, this.fallback, cache := c, fallback, map[];
    }

    /** Every entry reachable with a slash-free environment is what the uncached lookup gives. */
    ghost predicate Agrees()
      reads this
    {
      forall d, e | '/' !in e && CacheKey(d, e) in cache ::
        RouteOf(config, fallback, d, e) == To(cache[CacheKey(d, e)], true)
    }

    /** `connects`: the client for an uncached route can be created. */
    method TernClient(deployment: string, env: string, connects: bool) returns (r: Option<Backend>)
      modifies `cache
      ensures var key, route := CacheKey(deployment, env), RouteOf(config, fallback, deployment, env);
              if key in old(cache) then r == Some(old(cache)[key]) && cache == old(cache)
              else if route.To? && (connects || !route.cached) then
                && r == Some(route.backend)
                && cache == if route.cached then old(cache)[key := route.backend] else old(cache)
              else r == None && cache == old(cache)
      // with slash-free environments the cache never changes an answer
      ensures old(Agrees()) && '/' !in env ==>
                && Agrees()
                && (r.Some? ==> && RouteOf(config, fallback, deployment, env).To?
                                && r.value == RouteOf(config, fallback, deployment, env).backend)
                && (connects && r.None? ==> RouteOf(config, fallback, deployment, env).NotFound?)
    {
      var d := Named(deployment);
      var key := d + "/" + env;
      if key in cache {
        return Some(cache[key]);
      }
      if d in config.databases && env in config.databases[d].environments && config.databases[d].environments[env].dsn {
        if !connects {
          return None;
        }
        KeepsAgreement(deployment, env, Local(d, env));
        cache := cache[key := Local(d, env)];
        return Some(Local(d, env));
      }
      if d !in config.tern || env !in config.tern[d] {
        return if fallback then Some(Fallback) else None;
      }
      var address := config.tern[d][env];
      if address == "" || !connects {
        return None;
      }
      KeepsAgreement(deployment, env, Remote(address));
      cache := cache[key := Remote(address)];
      return Some(Remote(address));
    }

    lemma KeepsAgreement(deployment: string, env: string, b: Backend)
      requires RouteOf(config, fallback, deployment, env) == To(b, true)
      ensures Agrees() && '/' !in env ==>
                forall d, e | '/' !in e && CacheKey(d, e) in cache[CacheKey(deployment, env) := b] ::
                  RouteOf(config, fallback, d, e) == To(cache[CacheKey(deployment, env) := b][CacheKey(d, e)], true)
    {
      var key := CacheKey(deployment, env);
      if Agrees() && '/' !in env {
        forall d, e | '/' !in e && CacheKey(d, e) in cache[key := b]
          ensures RouteOf(config, fallback, d, e) == To(cache[key := b][CacheKey(d, e)], true)
        {
          if CacheKey(d, e) == key {
            SlashFreeKeys(d, e, deployment, env);
          }
        }
      }
    }
  }

  const SPLIT := Config(map[], map["a" := map["b/c" := "first:9090"], "a/b" := map["c" := "second:9090"]], true)

  /**
   With a slash in an environment name the cache answers for the wrong deployment, in a configuration that validates.
   */
  method CacheCollision() returns (answer: Option<Backend>)
    ensures Valid(SPLIT) && RouteOf(SPLIT, false, "a/b", "c") == To(Remote("second:9090"), true)
    ensures answer == Some(Remote("first:9090"))
  {
    assert "b/c" in SPLIT.tern["a"] && "c" in SPLIT.tern["a/b"];
    var clients := new Clients(SPLIT, false);
    assert CacheKey("a", "b/c") == "a/b/c" && CacheKey("a/b", "c") == "a/b/c";
    var _ := clients.TernClient("a", "b/c", true);
    answer := clients.TernClient("a/b", "c", true);
  }
}
