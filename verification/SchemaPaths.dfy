/**
 Repository paths: what cleaning a path means, which schema directories a source
 policy covers, and where a symlinked schema root may point.
 */
module SchemaPaths {
  import opened ApplyRows
  import opened DdlText
  import opened Names

  // ---------------------------------------------------------------- segments

  /** The text between slashes. */
  function Segs(s: string): (r: seq<string>)
    ensures r != []
  {
    if s == "" then [""]
    else if s[0] == '/' then [""] + Segs(s[1..])
    else Extended(s[0], Segs(s[1..]))
  }

  lemma {:induction false} SegsOfOne(s: string)
    requires '/' !in s
    ensures Segs(s) == [s]
  {
    if s != "" {
      SegsOfOne(s[1..]);
      assert [s[0]] + s[1..] == s;
    }
  }

  /** A segment list whose first segment is extended at its front. */
  function Extended(c: char, segs: seq<string>): seq<string>
    requires segs != []
  {
    [[c] + segs[0]] + segs[1..]
  }

  lemma ExtendedConcat(c: char, a: seq<string>, b: seq<string>)
    requires a != []
    ensures Extended(c, a + b) == Extended(c, a) + b
  {
  }

  lemma SegsHead(c: char, s: string)
    ensures Segs([c] + s) == if c == '/' then [""] + Segs(s) else Extended(c, Segs(s))
  {
    assert ([c] + s)[1..] == s;
  }

  lemma Assoc<T>(a: seq<T>, b: seq<T>, c: seq<T>)
    ensures (a + b) + c == a + (b + c)
  {
  }

  lemma SegsGrow(c: char, u: string, v: string)
    requires Segs(u + "/" + v) == Segs(u) + Segs(v)
    ensures Segs([c] + (u + "/" + v)) == Segs([c] + u) + Segs(v)
  {
    SegsHead(c, u);
    SegsHead(c, u + "/" + v);
    Assoc([""], Segs(u), Segs(v));
    ExtendedConcat(c, Segs(u), Segs(v));
  }

  lemma Uncons(u: string, v: string)
    requires u != ""
    ensures u == [u[0]] + u[1..] && u + "/" + v == [u[0]] + (u[1..] + "/" + v)
  {
  }

  lemma {:induction false} SegsConcat(u: string, v: string)
    ensures Segs(u + "/" + v) == Segs(u) + Segs(v)
  {
    if u == "" {
      assert u + "/" + v == ['/'] + v;
      SegsHead('/', v);
    } else {
      SegsConcat(u[1..], v);
      SegsGrow(u[0], u[1..], v);
      Uncons(u, v);
    }
  }

  predicate SlashFree(segs: seq<string>) {
    forall i | 0 <= i < |segs| :: '/' !in segs[i]
  }

  lemma {:induction false} SegsOfJoin(segs: seq<string>)
    requires segs != [] && SlashFree(segs)
    ensures Segs(Join("/", segs)) == segs
  {
    SegsOfOne(segs[0]);
    if |segs| > 1 {
      SegsOfJoin(segs[1..]);
      SegsConcat(segs[0], Join("/", segs[1..]));
    }
  }

  lemma {:induction false} JoinConcat(a: seq<string>, b: seq<string>)
    requires a != [] && b != []
    ensures Join("/", a + b) == Join("/", a) + "/" + Join("/", b)
  {
    assert (a + b)[1..] == a[1..] + b;
    if |a| > 1 {
      JoinConcat(a[1..], b);
      assert a[0] + "/" + (Join("/", a[1..]) + "/" + Join("/", b))
          == a[0] + "/" + Join("/", a[1..]) + "/" + Join("/", b);
    }
  }

  // ---------------------------------------------------------------- clean paths

  datatype Path = Path(rooted: bool, segs: seq<string>)

  function Push(stack: seq<string>, seg: string, rooted: bool): seq<string> {
    if seg == "" || seg == "." then stack
    else if seg != ".." then stack + [seg]
    else if stack != [] && stack[|stack| - 1] != ".." then stack[..|stack| - 1]
    else if rooted then stack
    else stack + [".."]
  }

  function Walk(stack: seq<string>, segs: seq<string>, rooted: bool): seq<string>
    decreases |segs|
  {
    if segs == [] then stack else Walk(Push(stack, segs[0], rooted), segs[1..], rooted)
  }

  /** Resolves empty, "." and ".." segments; only a relative path may keep leading ".." segments. */
  function Parse(s: string): Path {
    if s == "" then Path(false, []) else Path(s[0] == '/', Walk([], Segs(s), s[0] == '/'))
  }

  function Show(p: Path): string {
    if p.rooted then "/" + Join("/", p.segs) else if p.segs == [] then "." else Join("/", p.segs)
  }

  function Clean(s: string): string {
    Show(Parse(s))
  }

  /** What cleaning leaves: named segments, with ".." only at the front of a relative path. */
  predicate Cleaned(p: Path) {
    forall i | 0 <= i < |p.segs| ::
      && p.segs[i] != "" && p.segs[i] != "." && '/' !in p.segs[i]
      && (p.segs[i] == ".." ==> !p.rooted && forall j | 0 <= j < i :: p.segs[j] == "..")
  }

  lemma {:induction false} SegsAreSlashFree(s: string)
    ensures SlashFree(Segs(s))
  {
    if s != "" {
      SegsAreSlashFree(s[1..]);
    }
  }

  lemma {:induction false} WalkIsCleaned(stack: seq<string>, segs: seq<string>, rooted: bool)
    requires Cleaned(Path(rooted, stack)) && SlashFree(segs)
    ensures Cleaned(Path(rooted, Walk(stack, segs, rooted)))
    decreases |segs|
  {
    if segs != [] {
      WalkIsCleaned(Push(stack, segs[0], rooted), segs[1..], rooted);
    }
  }

  lemma ParseIsCleaned(s: string)
    ensures Cleaned(Parse(s))
  {
    if s != "" {
      SegsAreSlashFree(s);
      WalkIsCleaned([], Segs(s), s[0] == '/');
    }
  }

  lemma {:induction false} WalkKeeps(stack: seq<string>, segs: seq<string>, rooted: bool)
    requires Cleaned(Path(rooted, stack + segs))
    ensures Walk(stack, segs, rooted) == stack + segs
    decreases |segs|
  {
    if segs == [] {
      assert stack + segs == stack;
    } else {
      var all := stack + segs;
      assert all[|stack|] == segs[0];
      assert forall j | 0 <= j < |stack| :: all[j] == stack[j];
      assert (stack + [segs[0]]) + segs[1..] == all;
      WalkKeeps(stack + [segs[0]], segs[1..], rooted);
    }
  }

  lemma WalkSkips(seg: string, segs: seq<string>, rooted: bool)
    requires seg == "" || seg == "."
    ensures Walk([], [seg] + segs, rooted) == Walk([], segs, rooted)
  {
    assert ([seg] + segs)[1..] == segs;
  }

  lemma ParseShowRelative(segs: seq<string>)
    requires Cleaned(Path(false, segs))
    ensures Parse(Show(Path(false, segs))) == Path(false, segs)
  {
    if segs == [] {
      SegsOfOne(".");
      WalkSkips(".", [], false);
    } else {
      SegsOfJoin(segs);
      HeadOfJoin(segs);
      WalkKeeps([], segs, false);
    }
  }

  lemma ParseShowRooted(segs: seq<string>)
    requires Cleaned(Path(true, segs))
    ensures Parse(Show(Path(true, segs))) == Path(true, segs)
  {
    var body := Join("/", segs);
    assert "" + "/" + body == "/" + body;
    SegsConcat("", body);
    WalkSkips("", Segs(body), true);
    if segs == [] {
      WalkSkips("", [], true);
    } else {
      SegsOfJoin(segs);
      WalkKeeps([], segs, true);
    }
  }

  /** Showing a clean path and reading it back is the identity. */
  lemma ParseShow(p: Path)
    requires Cleaned(p)
    ensures Parse(Show(p)) == p
  {
    if p.rooted {
      ParseShowRooted(p.segs);
    } else {
      ParseShowRelative(p.segs);
    }
  }

  lemma HeadOfJoin(segs: seq<string>)
    requires segs != [] && segs[0] != "" && '/' !in segs[0]
    ensures Join("/", segs) != "" && Join("/", segs)[0] != '/'
  {
    assert segs[0][0] in segs[0];
  }

  lemma CleanIsIdempotent(s: string)
    ensures Clean(Clean(s)) == Clean(s)
    ensures Parse(Clean(s)) == Parse(s)
  {
    ParseIsCleaned(s);
    ParseShow(Parse(s));
  }

  /** The text-level prefix test is a whole-segment prefix test. */
  lemma PrefixIffSegments(a: Path, b: Path)
    requires Cleaned(a) && Cleaned(b) && !a.rooted && !b.rooted && a.segs != []
    ensures Show(a) + "/" <= Show(b) <==> a.segs < b.segs
  {
    SegsOfJoin(a.segs);
    if Show(a) + "/" <= Show(b) {
      var x := Show(b)[|Show(a)| + 1..];
      assert Show(b) == Show(a) + "/" + x;
      SegsConcat(Show(a), x);
      if b.segs == [] {
        SegsOfOne(".");
      } else {
        SegsOfJoin(b.segs);
      }
    }
    if a.segs < b.segs {
      var rest := b.segs[|a.segs|..];
      assert b.segs == a.segs + rest;
      JoinConcat(a.segs, rest);
    }
  }

  // ---------------------------------------------------------------- source policy

  predicate Escapes(p: Path) {
    !p.rooted && p.segs != [] && p.segs[0] == ".."
  }

  /** A repo-relative directory, cleaned; "*" stands for any directory. None for empty, rooted and escaping values. */
  function Normalize(value: string): Option<string> {
    var v := Trim(value);
    if v == "" then None
    else if v == "*" then Some("*")
    else if v[0] == '/' then None
    else if Clean(v) == ".." || "../" <= Clean(v) then None
    else Some(Clean(v))
  }

  lemma EscapeIff(v: string)
    requires v != "" && v[0] != '/'
    ensures Clean(v) == ".." || "../" <= Clean(v) <==> Escapes(Parse(v))
  {
    var up, p := Path(false, [".."]), Parse(v);
    ParseIsCleaned(v);
    PrefixIffSegments(up, p);
    assert Show(up) == ".." && Show(up) + "/" == "../";
    if Clean(v) == ".." {
      ParseShow(p);
      ParseShow(up);
    }
    if Escapes(p) {
      assert p.segs == [".."] || up.segs < p.segs;
    }
  }

  /** Normalized paths are clean, relative and inside the repository. */
  lemma NormalizedShape(value: string)
    requires Normalize(value).Some?
    ensures var s := Normalize(value).value;
            s == Show(Parse(s)) && Cleaned(Parse(s)) && !Parse(s).rooted && !Escapes(Parse(s))
  {
    var v := Trim(value);
    if v == "*" {
      SegsOfOne("*");
      assert Walk([], ["*"], false) == Walk(["*"], [], false);
      ParseIsCleaned("*");
    } else {
      EscapeIff(v);
      CleanIsIdempotent(v);
      ParseIsCleaned(v);
    }
  }

  /** What normalizes, and to which path: a trimmed relative path inside the repository, the path it was. */
  lemma NormalizeIff(value: string)
    ensures var v := Trim(value);
            && (Normalize(value).None? <==> v == "" || (v != "*" && (v[0] == '/' || Escapes(Parse(v)))))
            && (v == "*" ==> Normalize(value) == Some("*"))
            && (Normalize(value).Some? ==> Parse(Normalize(value).value) == Parse(v))
  {
    var v := Trim(value);
    if v != "" && v[0] != '/' {
      EscapeIff(v);
    }
    CleanIsIdempotent(v);
  }

  /** The policy's test on normalized values. */
  predicate Covers(dir: string, path: string) {
    dir == "*" || path == dir || (dir != "." && dir + "/" <= path)
  }

  /** In terms of segments: the directory is the wildcard, the path itself, or a proper ancestor other than the root. */
  lemma CoversIff(dir: string, path: string)
    requires Normalize(dir).Some? && Normalize(path).Some?
    ensures var d, p := Normalize(dir).value, Normalize(path).value;
            Covers(d, p) <==>
              d == "*" || Parse(d).segs == Parse(p).segs || (Parse(d).segs != [] && Parse(d).segs < Parse(p).segs)
  {
    NormalizedShape(dir);
    NormalizedShape(path);
    var a, b := Parse(Normalize(dir).value), Parse(Normalize(path).value);
    if a.segs != [] {
      PrefixIffSegments(a, b);
      if Show(a) == "." {
        ParseShow(a);
      }
    }
  }

  ghost predicate Allows(dirs: seq<string>, path: string) {
    exists k | 0 <= k < |dirs| :: Hits(dirs[k], path)
  }

  /** Both texts normalize and the directory covers the path. */
  ghost predicate Hits(dir: string, path: string) {
    && Normalize(dir).Some? && Normalize(path).Some?
    && Covers(Normalize(dir).value, Normalize(path).value)
  }

  ghost predicate AllNormal(dirs: seq<string>) {
    forall k | 0 <= k < |dirs| :: Normalize(dirs[k]).Some?
  }

  /** An entry that does not normalize ends the search. */
  ghost predicate Reaches(dirs: seq<string>, path: string) {
    exists k | 0 <= k < |dirs| :: AllNormal(dirs[..k]) && Hits(dirs[k], path)
  }

  lemma NormalReaches(dirs: seq<string>, path: string)
    ensures AllNormal(dirs) ==> (Reaches(dirs, path) <==> Allows(dirs, path))
  {
    if AllNormal(dirs) && Allows(dirs, path) {
      var k :| 0 <= k < |dirs| && Hits(dirs[k], path);
      assert AllNormal(dirs[..k]);
    }
  }

  /** The search went past the first i entries. */
  ghost predicate Passed(dirs: seq<string>, path: string, i: nat) {
    i <= |dirs| && forall k | 0 <= k < i :: Normalize(dirs[k]).Some? && !Hits(dirs[k], path)
  }

  lemma SearchGoesOn(dirs: seq<string>, path: string, i: nat)
    requires Passed(dirs, path, i) && i < |dirs| && Normalize(dirs[i]).Some? && !Hits(dirs[i], path)
    ensures Passed(dirs, path, i + 1)
  {
  }

  lemma SearchFinds(dirs: seq<string>, path: string, i: nat)
    requires Passed(dirs, path, i) && i < |dirs| && Hits(dirs[i], path)
    ensures Reaches(dirs, path)
  {
    assert AllNormal(dirs[..i]);
  }

  lemma SearchEnds(dirs: seq<string>, path: string, i: nat)
    requires Passed(dirs, path, i) && (i == |dirs| || Normalize(dirs[i]).None?)
    ensures !Reaches(dirs, path)
  {
    forall k | i < k < |dirs| ensures !AllNormal(dirs[..k]) {
      assert dirs[..k][i] == dirs[i];
    }
  }

  method SchemaPathAllowed(dirs: seq<string>, path: string) returns (ok: bool)
    ensures ok <==> Reaches(dirs, path)
    ensures AllNormal(dirs) ==> (ok <==> Allows(dirs, path))
  {
    NormalReaches(dirs, path);
    var clean := Normalize(path);
    if clean.None? {
      return false;
    }
    for i := 0 to |dirs|
      invariant Passed(dirs, path, i)
    {
      var dir := Normalize(dirs[i]);
      if dir.None? {
        SearchEnds(dirs, path, i);
        return false;
      }
      if Covers(dir.value, clean.value) {
        SearchFinds(dirs, path, i);
        return true;
      }
      SearchGoesOn(dirs, path, i);
    }
    SearchEnds(dirs, path, |dirs|);
    ok := false;
  }

  /** Allowed repositories and schema directories of one database; empty lists restrict nothing. */
  datatype Policy = Policy(repos: seq<string>, dirs: seq<string>)

  datatype Source = Source(database: string, repository: string, pullRequest: int, schemaPath: string)

  datatype Verdict =
    | Authorized | MissingDatabase | MissingRepository | MissingPullRequest | MissingSchemaPath
    | UnauthorizedRepo | UnauthorizedDir

  ghost predicate RepoListed(repos: seq<string>, repo: string) {
    exists k | 0 <= k < |repos| :: Trim(repos[k]) == "*" || Trim(repos[k]) == Trim(repo)
  }

  ghost predicate AllowsRepo(p: Policy, repo: string) {
    p.repos == [] || RepoListed(p.repos, repo)
  }

  method RepoAllowed(repos: seq<string>, repo: string) returns (ok: bool)
    ensures ok <==> RepoListed(repos, repo)
  {
    for i := 0 to |repos|
      invariant forall k | 0 <= k < i :: Trim(repos[k]) != "*" && Trim(repos[k]) != Trim(repo)
    {
      if Trim(repos[i]) == "*" || Trim(repos[i]) == Trim(repo) {
        return true;
      }
    }
    ok := false;
  }

  ghost predicate AllowedForRepo(databases: map<string, Policy>, repo: string, path: string) {
    exists d <- databases ::
      databases[d].dirs != [] && AllowsRepo(databases[d], repo) && Reaches(databases[d].dirs, path)
  }

  ghost function FirstUnmet(p: Policy, req: Source): Verdict {
    if Trim(req.repository) == "" then MissingRepository
    else if req.pullRequest <= 0 then MissingPullRequest
    else if Trim(req.schemaPath) == "" then MissingSchemaPath
    else if !AllowsRepo(p, req.repository) then UnauthorizedRepo
    else if p.dirs != [] && !Reaches(p.dirs, req.schemaPath) then UnauthorizedDir
    else Authorized
  }

  method AuthorizePlanSource(databases: map<string, Policy>, req: Source) returns (v: Verdict)
    ensures v == MissingDatabase <==> req.database !in databases
    ensures req.database in databases && databases[req.database] == Policy([], []) ==> v == Authorized
    ensures req.database in databases && databases[req.database] != Policy([], []) ==>
              var p := databases[req.database];
              (v == Authorized <==> && Trim(req.repository) != "" && req.pullRequest > 0 && Trim(req.schemaPath) != ""
                                    && AllowsRepo(p, req.repository)
                                    && (p.dirs == [] || Reaches(p.dirs, req.schemaPath)))
    // an authorized plan stays inside the boundary its repository is given
    ensures v == Authorized && databases[req.database].dirs != [] ==>
              AllowedForRepo(databases, req.repository, req.schemaPath)
    // a refusal names the first demand that is not met
    ensures req.database in databases && databases[req.database] != Policy([], []) ==>
              v == FirstUnmet(databases[req.database], req)
  {
    if req.database !in databases {
      return MissingDatabase;
    }
    var p := databases[req.database];
    if |p.repos| == 0 && |p.dirs| == 0 {
      return Authorized;
    }
    if Trim(req.repository) == "" {
      return MissingRepository;
    }
    if req.pullRequest <= 0 {
      return MissingPullRequest;
    }
    if Trim(req.schemaPath) == "" {
      return MissingSchemaPath;
    }
    if |p.repos| > 0 {
      var ok := RepoAllowed(p.repos, req.repository);
      if !ok {
        return UnauthorizedRepo;
      }
    }
    if |p.dirs| > 0 {
      var ok := SchemaPathAllowed(p.dirs, req.schemaPath);
      if !ok {
        return UnauthorizedDir;
      }
    }
    v := Authorized;
  }

  method SchemaPathAllowedForRepo(databases: map<string, Policy>, repo: string, path: string) returns (ok: bool)
    ensures ok <==> AllowedForRepo(databases, repo, path)
  {
    var left := databases.Keys;
    while left != {}
      invariant left <= databases.Keys
      invariant forall d | d in databases.Keys - left ::
                  !(databases[d].dirs != [] && AllowsRepo(databases[d], repo) && Reaches(databases[d].dirs, path))
    {
      var d :| d in left;
      left := left - {d};
      var p := databases[d];
      if |p.dirs| > 0 {
        var allows := |p.repos| == 0;
        if !allows {
          allows := RepoAllowed(p.repos, repo);
        }
        if allows {
          var reached := SchemaPathAllowed(p.dirs, path);
          if reached {
            return true;
          }
        }
      }
    }
    ok := false;
  }

  /** The values a policy may hold. */
  ghost predicate ValidPolicy(p: Policy) {
    && (forall k | 0 <= k < |p.repos| :: p.repos[k] != "" && Trim(p.repos[k]) == p.repos[k])
    && Distinct(p.repos)
    && AllNormal(p.dirs)
    && forall j, k | 0 <= j < k < |p.dirs| :: Normalize(p.dirs[j]) != Normalize(p.dirs[k])
  }

  method ValidateAllowedRepos(repos: seq<string>) returns (ok: bool)
    ensures ok <==> (forall k | 0 <= k < |repos| :: repos[k] != "" && Trim(repos[k]) == repos[k]) && Distinct(repos)
  {
    var seen: set<string> := {};
    for i := 0 to |repos|
      invariant forall k | 0 <= k < i :: repos[k] != "" && Trim(repos[k]) == repos[k]
      invariant Distinct(repos[..i]) && forall r :: r in seen <==> r in repos[..i]
    {
      var trimmed := Trim(repos[i]);
      if trimmed == "" || trimmed != repos[i] {
        return false;
      }
      if trimmed in seen {
        var k :| 0 <= k < i && repos[..i][k] == trimmed;
        assert repos[k] == repos[i];
        return false;
      }
      seen := seen + {trimmed};
    }
    assert repos[..|repos|] == repos;
    ok := true;
  }

  /** Every directory normalizes, and no two to the same value. */
  method AllDistinct(dirs: seq<Option<string>>) returns (ok: bool)
    ensures ok <==> && (forall k | 0 <= k < |dirs| :: dirs[k].Some?)
                    && forall j, k | 0 <= j < k < |dirs| :: dirs[j] != dirs[k]
  {
    var seen: set<string> := {};
    for i := 0 to |dirs|
      invariant forall k | 0 <= k < i :: dirs[k].Some? && dirs[k].value in seen
      invariant forall s <- seen :: exists k | 0 <= k < i :: dirs[k] == Some(s)
      invariant forall j, k | 0 <= j < k < i :: dirs[j] != dirs[k]
    {
      if dirs[i].None? || dirs[i].value in seen {
        return false;
      }
      seen := seen + {dirs[i].value};
    }
    ok := true;
  }

  method ValidateSourcePolicy(p: Policy) returns (ok: bool)
    ensures ok <==> ValidPolicy(p)
  {
    ok := ValidateAllowedRepos(p.repos);
    if ok {
      var normalized := seq(|p.dirs|, k requires 0 <= k < |p.dirs| => Normalize(p.dirs[k]));
      ok := AllDistinct(normalized);
      assert forall k | 0 <= k < |p.dirs| :: normalized[k] == Normalize(p.dirs[k]);
    }
  }

  // ---------------------------------------------------------------- schema roots

  method ValidEnvironmentSegment(env: string) returns (ok: bool)
    ensures ok <==> env != "." && env != ".." && '/' !in env && '\\' !in env
  {
    if env == "." || env == ".." {
      return false;
    }
    for i := 0 to |env|
      invariant '/' !in env[..i] && '\\' !in env[..i]
    {
      if env[i] == '/' || env[i] == '\\' {
        return false;
      }
    }
    assert env[..|env|] == env;
    ok := true;
  }

  lemma {:induction false} WalkAppend(stack: seq<string>, a: seq<string>, b: seq<string>, rooted: bool)
    ensures Walk(stack, a + b, rooted) == Walk(Walk(stack, a, rooted), b, rooted)
    decreases |a|
  {
    if a == [] {
      assert a + b == b;
    } else {
      assert (a + b)[1..] == a[1..] + b;
      WalkAppend(Push(stack, a[0], rooted), a[1..], b, rooted);
    }
  }

  /**
   How cleaning reads a path segment by segment: an empty or "." segment changes nothing, a name goes one level down,
   and ".." goes one level up; above the root it stays there, and above a relative start it is kept.
   */
  lemma ParseAppend(s: string, seg: string)
    requires s != "" && '/' !in seg
    ensures var p, q := Parse(s), Parse(s + "/" + seg);
            && q.rooted == p.rooted
            && (seg == "" || seg == "." ==> q.segs == p.segs)
            && (seg != "" && seg != "." && seg != ".." ==> q.segs == p.segs + [seg])
            && (seg == ".." && p.segs != [] && p.segs[|p.segs| - 1] != ".." ==> q.segs == p.segs[..|p.segs| - 1])
            && (seg == ".." && (p.segs == [] || p.segs[|p.segs| - 1] == "..") ==>
                  q.segs == if p.rooted then p.segs else p.segs + [".."])
  {
    var rooted := s[0] == '/';
    SegsConcat(s, seg);
    SegsOfOne(seg);
    WalkAppend([], Segs(s), [seg], rooted);
    var stack := Parse(s).segs;
    assert Walk(stack, [seg], rooted) == Walk(Push(stack, seg, rooted), [], rooted);
  }

  function JoinPath(dir: string, name: string): string {
    if dir == "" && name == "" then ""
    else if dir == "" then Clean(name)
    else if name == "" then Clean(dir)
    else Clean(dir + "/" + name)
  }

  /** An environment's schema root candidate is a direct child of the configuration directory. */
  lemma EnvironmentIsChild(dir: string, env: string)
    requires dir != "" && env != "" && env != "." && env != ".." && '/' !in env
    ensures Parse(JoinPath(dir, env)) == Path(Parse(dir).rooted, Parse(dir).segs + [env])
  {
    var rooted := dir[0] == '/';
    SegsConcat(dir, env);
    SegsOfOne(env);
    WalkAppend([], Segs(dir), [env], rooted);
    assert Walk(Parse(dir).segs, [env], rooted) == Walk(Parse(dir).segs + [env], [], rooted);
    CleanIsIdempotent(dir + "/" + env);
  }

  lemma ShowHead(p: Path)
    requires Cleaned(p)
    ensures Show(p) != "" && (Show(p)[0] == '/' <==> p.rooted)
  {
    if !p.rooted && p.segs != [] {
      HeadOfJoin(p.segs);
    }
  }

  lemma PrefixIff(a: Path, b: Path)
    requires Cleaned(a) && Cleaned(b) && a.segs != []
    ensures Show(a) + "/" <= Show(b) <==> a.rooted == b.rooted && a.segs < b.segs
  {
    ShowHead(a);
    ShowHead(b);
    assert (Show(a) + "/")[0] == Show(a)[0];
    if a.rooted == b.rooted {
      if !a.rooted {
        PrefixIffSegments(a, b);
      } else {
        PrefixIffRooted(a.segs, b.segs);
      }
    }
  }

  lemma PrefixIffRooted(a: seq<string>, b: seq<string>)
    requires Cleaned(Path(true, a)) && Cleaned(Path(true, b)) && a != []
    ensures Show(Path(true, a)) + "/" <= Show(Path(true, b)) <==> a < b
  {
    PrefixIffSegments(Path(false, a), Path(false, b));
    var x, y := Join("/", a), Join("/", b);
    assert "/" + x + "/" == "/" + (x + "/");
    assert "/" + (x + "/") <= "/" + y <==> x + "/" <= y by {
      assert ("/" + y)[1..] == y && ("/" + (x + "/"))[1..] == x + "/";
      if "/" + (x + "/") <= "/" + y {
        assert y[..|x| + 1] == ("/" + y)[1..|x| + 2];
      }
    }
    if b == [] {
      assert y == "";
    }
  }

  function Within(directory: string, candidate: string): bool {
    var d, c := Clean(directory), Clean(candidate);
    if d == "." then c == "." || (c != ".." && !("../" <= c) && !("/" <= c)) else c == d || d + "/" <= c
  }

  /** Inside a directory, by segments; the root directory "/" holds nothing but itself. */
  predicate Inside(d: Path, c: Path) {
    if d == Path(false, []) then !c.rooted && !Escapes(c)
    else if d.segs == [] then c == d
    else c.rooted == d.rooted && d.segs <= c.segs
  }

  lemma WithinIff(directory: string, candidate: string)
    ensures Within(directory, candidate) <==> Inside(Parse(directory), Parse(candidate))
  {
    var d, c := Parse(directory), Parse(candidate);
    ParseIsCleaned(directory);
    ParseIsCleaned(candidate);
    ParseShow(d);
    ParseShow(c);
    ShowHead(c);
    if d == Path(false, []) {
      EscapesShown(c);
    } else if d.segs == [] {
      RootHoldsItself(c);
    } else {
      PrefixIff(d, c);
      ParseShow(Path(false, []));
      assert d.segs <= c.segs <==> d.segs == c.segs || d.segs < c.segs;
    }
  }

  lemma EscapesShown(c: Path)
    requires Cleaned(c)
    ensures Show(c) == ".." || "../" <= Show(c) <==> Escapes(c)
  {
    var up := Path(false, [".."]);
    PrefixIff(up, c);
    ParseShow(up);
    ParseShow(c);
    assert Show(up) == ".." && Show(up) + "/" == "../";
  }

  lemma RootHoldsItself(c: Path)
    requires Cleaned(c)
    ensures !("//" <= Show(c))
  {
    if c.rooted && c.segs != [] {
      HeadOfJoin(c.segs);
      assert Show(c)[1] == Join("/", c.segs)[0];
    }
    ShowHead(c);
  }

  /** Everything up to the last slash, cleaned. */
  function Dir(s: string): string {
    Clean(s[..LastSlash(s)])
  }

  function LastSlash(s: string): (n: nat)
    ensures n <= |s|
  {
    if s == "" then 0 else if s[|s| - 1] == '/' then |s| else LastSlash(s[..|s| - 1])
  }

  method ResolveSchemaRootSymlink(configDir: string, link: string, target: string) returns (r: Option<string>)
    ensures r.Some? <==> var t := Trim(target);
              t != "" && t[0] != '/' && Inside(Parse(configDir), Parse(JoinPath(Dir(link), t)))
    ensures r.Some? ==> r.value == JoinPath(Dir(link), Trim(target)) && Inside(Parse(configDir), Parse(r.value))
  {
    var t := Trim(target);
    if t == "" || t[0] == '/' {
      return None;
    }
    var resolved := Clean(JoinPath(Dir(link), t));
    WithinIff(Clean(configDir), resolved);
    CleanIsIdempotent(configDir);
    CleanIsIdempotent(JoinPath(Dir(link), t));
    CleanIsIdempotent(Dir(link) + "/" + t);
    CleanIsIdempotent(t);
    return if Within(Clean(configDir), resolved) then Some(resolved) else None;
  }
}
