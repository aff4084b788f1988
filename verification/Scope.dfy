/** Scope rules: what a manifest diff may touch (execution/scope_guard.py), how a
    request is cut down to a ceiling (policy/paths.py), and when one scope counts
    as narrower than another (domain/validation.py). */
module Scope {
  import opened Wrappers
  import opened Manifest
  import opened Glob
  import opened Regex

  /** The rule lists only ever act as sets. */
  datatype ScopeRules = ScopeRules(
    allowed: set<string>, forbidden: set<string>, allowNewFiles: bool,
    maxChangedFiles: Option<nat>, maxChangedBytes: Option<nat>, generated: set<string>)

  predicate MatchesAny(path: string, rules: set<string>) {
    exists pattern <- rules :: PathMatchesGlob(path, pattern)
  }

  predicate Permitted(scope: ScopeRules, path: string) {
    !MatchesAny(path, scope.forbidden) && MatchesAny(path, scope.allowed)
  }

  /** A path is permitted when the regular expression of no forbidden pattern matches
      it and that of some allowed one does. */
  lemma PermittedMeans(scope: ScopeRules, path: string)
    ensures Permitted(scope, path) <==>
              && (forall pattern <- scope.forbidden :: !PythonMatch(RegexText(pattern), path))
              && (exists pattern <- scope.allowed :: PythonMatch(RegexText(pattern), path))
  {
    forall pattern ensures PathMatchesGlob(path, pattern) <==> PythonMatch(RegexText(pattern), path) {
      PythonDecides(pattern, path);
    }
  }

  /* ---- What counts against the ceilings ------------------------------------------------ */

  function Countable(paths: seq<string>, scope: ScopeRules): seq<string> {
    if paths == [] then []
    else
      var n := |paths| - 1;
      Countable(paths[..n], scope) + if MatchesAny(paths[n], scope.generated) then [] else [paths[n]]
  }

  /** The size a changed path is charged with: the result's entry, or else the
      baseline's, or nothing. */
  function SizeOf(path: string, result: Tree, baseline: Tree): nat {
    if path in result then result[path].size
    else if path in baseline then baseline[path].size
    else 0
  }

  function TotalBytes(paths: seq<string>, result: Tree, baseline: Tree): nat {
    if paths == [] then 0
    else
      var n := |paths| - 1;
      TotalBytes(paths[..n], result, baseline) + SizeOf(paths[n], result, baseline)
  }

  /** The manifests given to the check, each of them optional. */
  datatype Manifests = Manifests(baseline: Option<Tree>, result: Option<Tree>)

  predicate Within(count: nat, ceiling: Option<nat>) {
    ceiling.Some? ==> count <= ceiling.value
  }

  function BytesOf(paths: seq<string>, m: Manifests): nat {
    TotalBytes(paths, m.result.GetOr(map[]), m.baseline.GetOr(map[]))
  }

  /** A diff a scope has nothing against. The byte ceiling is enforced only when
      some manifest is at hand. */
  ghost predicate Clean(d: ManifestDiff, scope: ScopeRules, m: Manifests) {
    && (forall path <- ChangedPaths(d) :: Permitted(scope, path))
    && CeilingsKept(d, scope, m)
  }

  ghost predicate CeilingsKept(d: ManifestDiff, scope: ScopeRules, m: Manifests) {
    && (scope.allowNewFiles || forall path <- d.added :: MatchesAny(path, scope.generated))
    && Within(|Countable(ChangedPaths(d), scope)|, scope.maxChangedFiles)
    && (m.baseline.Some? || m.result.Some? ==>
          Within(BytesOf(Countable(ChangedPaths(d), scope), m), scope.maxChangedBytes))
  }

  /* ---- find_scope_violations --------------------------------------------------------------- */

  datatype Violation =
    | MatchesForbidden(path: string) | MatchesNoAllowed(path: string)
    | NewFiles(added: nat) | TooManyFiles(changed: nat) | TooManyBytes(bytes: nat)

  function PathViolation(scope: ScopeRules, path: string): seq<Violation> {
    if MatchesAny(path, scope.forbidden) then [MatchesForbidden(path)]
    else if !MatchesAny(path, scope.allowed) then [MatchesNoAllowed(path)]
    else []
  }

  function PathViolations(scope: ScopeRules, paths: seq<string>): seq<Violation> {
    if paths == [] then []
    else
      var n := |paths| - 1;
      PathViolations(scope, paths[..n]) + PathViolation(scope, paths[n])
  }

  lemma {:induction false} NoPathViolations(scope: ScopeRules, paths: seq<string>)
    ensures PathViolations(scope, paths) == [] <==> forall path <- paths :: Permitted(scope, path)
  {
    if paths != [] {
      var n := |paths| - 1;
      NoPathViolations(scope, paths[..n]);
      assert paths == paths[..n] + [paths[n]];
      assert PathViolation(scope, paths[n]) == [] <==> Permitted(scope, paths[n]);
      assert paths[n] in paths;
    }
  }

  lemma {:induction false} PathsAreNamed(scope: ScopeRules, paths: seq<string>)
    ensures forall p :: MatchesForbidden(p) in PathViolations(scope, paths) <==>
                          p in paths && MatchesAny(p, scope.forbidden)
    ensures forall p :: MatchesNoAllowed(p) in PathViolations(scope, paths) <==>
                          p in paths && !MatchesAny(p, scope.forbidden) && !MatchesAny(p, scope.allowed)
    ensures forall v <- PathViolations(scope, paths) :: v.MatchesForbidden? || v.MatchesNoAllowed?
  {
    hide MatchesAny;
    if paths != [] {
      var n := |paths| - 1;
      PathsAreNamed(scope, paths[..n]);
      assert paths == paths[..n] + [paths[n]];
    }
  }

  lemma {:induction false} NothingCountable(paths: seq<string>, scope: ScopeRules)
    ensures Countable(paths, scope) == [] <==> forall path <- paths :: MatchesAny(path, scope.generated)
  {
    if paths != [] {
      var n := |paths| - 1;
      NothingCountable(paths[..n], scope);
      assert paths == paths[..n] + [paths[n]];
    }
  }

  method CountablePaths(paths: seq<string>, scope: ScopeRules) returns (kept: seq<string>)
    ensures kept == Countable(paths, scope)
  {
    kept := [];
    for i := 0 to |paths|
      invariant kept == Countable(paths[..i], scope)
    {
      assert paths[..i + 1][..i] == paths[..i];
      if !MatchesAny(paths[i], scope.generated) {
        kept := kept + [paths[i]];
      }
    }
    assert paths[..|paths|] == paths;
  }

  method PathFindings(paths: seq<string>, scope: ScopeRules) returns (found: seq<Violation>)
    ensures found == PathViolations(scope, paths)
  {
    found := [];
    for i := 0 to |paths|
      invariant found == PathViolations(scope, paths[..i])
    {
      assert paths[..i + 1][..i] == paths[..i];
      if MatchesAny(paths[i], scope.forbidden) {
        found := found + [MatchesForbidden(paths[i])];
      } else if !MatchesAny(paths[i], scope.allowed) {
        found := found + [MatchesNoAllowed(paths[i])];
      }
    }
    assert paths[..|paths|] == paths;
  }

  method ChangedBytes(paths: seq<string>, result: Tree, baseline: Tree) returns (total: nat)
    ensures total == TotalBytes(paths, result, baseline)
  {
    total := 0;
    for i := 0 to |paths|
      invariant total == TotalBytes(paths[..i], result, baseline)
    {
      assert paths[..i + 1][..i] == paths[..i];
      if paths[i] in result {
        total := total + result[paths[i]].size;
      } else if paths[i] in baseline {
        total := total + baseline[paths[i]].size;
      }
    }
    assert paths[..|paths|] == paths;
  }

  /** The part of the check that counts. */
  method CeilingFindings(d: ManifestDiff, scope: ScopeRules, m: Manifests) returns (found: seq<Violation>)
    ensures found == [] <==> CeilingsKept(d, scope, m)
    ensures forall v <- found :: v.NewFiles? || v.TooManyFiles? || v.TooManyBytes?
    ensures forall n :: NewFiles(n) in found <==> !scope.allowNewFiles && n == |Countable(d.added, scope)| > 0
    ensures var counted := Countable(ChangedPaths(d), scope);
            && (forall n: nat :: TooManyFiles(n) in found <==>
                  n == |counted| && scope.maxChangedFiles.Some? && n > scope.maxChangedFiles.value)
            && (forall n: nat :: TooManyBytes(n) in found <==>
                  && (m.baseline.Some? || m.result.Some?) && n == BytesOf(counted, m)
                  && scope.maxChangedBytes.Some? && n > scope.maxChangedBytes.value)
  {
    hide MatchesAny, TotalBytes, Countable;
    found := [];
    var countable := CountablePaths(ChangedPaths(d), scope);
    var countableAdded := CountablePaths(d.added, scope);
    NothingCountable(d.added, scope);
    if !scope.allowNewFiles && countableAdded != [] {
      found := found + [NewFiles(|countableAdded|)];
    }
    if scope.maxChangedFiles.Some? && |countable| > scope.maxChangedFiles.value {
      found := found + [TooManyFiles(|countable|)];
    }
    if scope.maxChangedBytes.Some? && (m.baseline.Some? || m.result.Some?) {
      var total := ChangedBytes(countable, m.result.GetOr(map[]), m.baseline.GetOr(map[]));
      if total > scope.maxChangedBytes.value {
        found := found + [TooManyBytes(total)];
      }
    }
  }

  /** Every path that breaks a rule is named, for the rule it breaks. */
  ghost predicate NamesPaths(violations: seq<Violation>, d: ManifestDiff, scope: ScopeRules) {
    && (forall p :: MatchesForbidden(p) in violations <==> p in ChangedPaths(d) && MatchesAny(p, scope.forbidden))
    && (forall p :: MatchesNoAllowed(p) in violations <==>
          p in ChangedPaths(d) && !MatchesAny(p, scope.forbidden) && !MatchesAny(p, scope.allowed))
  }

  /** `find_scope_violations`: nothing is reported exactly for a clean diff, and
      every offending path is named, once per occurrence. */
  method FindScopeViolations(d: ManifestDiff, scope: ScopeRules, m: Manifests)
    returns (violations: seq<Violation>)
    ensures violations == [] <==> Clean(d, scope, m)
    ensures NamesPaths(violations, d, scope)
    ensures PathViolations(scope, ChangedPaths(d)) <= violations
    ensures forall v <- violations[|PathViolations(scope, ChangedPaths(d))|..] ::
              v.NewFiles? || v.TooManyFiles? || v.TooManyBytes?
  {
    hide MatchesAny, Permitted, PathViolations, CeilingsKept;
    PathsAreNamed(scope, ChangedPaths(d));
    var changed := ChangedPaths(d);
    var found := PathFindings(changed, scope);
    NoPathViolations(scope, changed);
    var ceilings := CeilingFindings(d, scope, m);
    violations := found + ceilings;
    assert violations[|found|..] == ceilings;
  }

  /** What a diff is charged: new and changed files their new size, deleted files
      their old one. */
  lemma ChargedSizes(b: Tree, r: Tree, d: ManifestDiff, p: string)
    requires IsDiff(b, r, d)
    ensures p in d.added || p in d.modified ==> p in r && BytesOf([p], ManifestsOf(b, r)) == r[p].size
    ensures p in d.deleted ==> p in b && BytesOf([p], ManifestsOf(b, r)) == b[p].size
  {
    assert p in d.added ==> p in r.Keys - b.Keys;
    assert p in d.deleted ==> p in b.Keys - r.Keys;
    assert BytesOf([p], ManifestsOf(b, r)) == TotalBytes([], r, b) + SizeOf(p, r, b) by {
      assert [p][..0] == [];
    }
  }

  /** And the charges add up. */
  lemma {:induction false} BytesAddUp(some: seq<string>, more: seq<string>, m: Manifests)
    ensures BytesOf(some + more, m) == BytesOf(some, m) + BytesOf(more, m)
    ensures BytesOf([], m) == 0
  {
    if more == [] {
      assert some + more == some;
    } else {
      var n := |more| - 1;
      BytesAddUp(some, more[..n], m);
      assert (some + more)[..|some| + n] == some + more[..n];
    }
  }

  /* ---- The order of scopes and its meets ------------------------------------------------------ */

  /** `_ceiling_not_raised` */
  predicate CeilingNotRaised(child: Option<nat>, parent: Option<nat>) {
    if parent.None? then true
    else if child.None? then false
    else child.value <= parent.value
  }

  /** `is_scope_subset`; the generated paths are not compared. */
  predicate IsScopeSubset(child: ScopeRules, parent: ScopeRules) {
    && child.allowed <= parent.allowed
    && parent.forbidden <= child.forbidden
    && (child.allowNewFiles ==> parent.allowNewFiles)
    && CeilingNotRaised(child.maxChangedFiles, parent.maxChangedFiles)
    && CeilingNotRaised(child.maxChangedBytes, parent.maxChangedBytes)
  }

  /** `_min_optional` */
  function MinOptional(a: Option<nat>, b: Option<nat>): Option<nat> {
    if a.None? then b
    else if b.None? then a
    else if a.value <= b.value then a else b
  }

  function IntersectScope(requested: ScopeRules, ceiling: ScopeRules): ScopeRules {
    ScopeRules(
      requested.allowed * ceiling.allowed,
      requested.forbidden + ceiling.forbidden,
      requested.allowNewFiles && ceiling.allowNewFiles,
      MinOptional(requested.maxChangedFiles, ceiling.maxChangedFiles),
      MinOptional(requested.maxChangedBytes, ceiling.maxChangedBytes),
      requested.generated * ceiling.generated)
  }

  lemma SubsetIsPreorder(a: ScopeRules, b: ScopeRules, c: ScopeRules)
    ensures IsScopeSubset(a, a)
    ensures IsScopeSubset(a, b) && IsScopeSubset(b, c) ==> IsScopeSubset(a, c)
    ensures IsScopeSubset(a, b) && IsScopeSubset(b, a) ==> a == b.(generated := a.generated)
  {
  }

  /** The order with the generated paths compared as well. */
  predicate Narrower(child: ScopeRules, parent: ScopeRules) {
    IsScopeSubset(child, parent) && child.generated <= parent.generated
  }

  /** The intersection is the greatest lower bound: a scope is below it exactly
      when it is below both, in the subset order and with generated paths. */
  lemma IntersectionIsMeet(a: ScopeRules, b: ScopeRules, c: ScopeRules)
    ensures IsScopeSubset(c, IntersectScope(a, b)) <==> IsScopeSubset(c, a) && IsScopeSubset(c, b)
    ensures Narrower(c, IntersectScope(a, b)) <==> Narrower(c, a) && Narrower(c, b)
  {
  }

  /* ---- The order agrees with what is rejected --------------------------------------------------- */

  /** Fewer exemptions count more paths, and more bytes. */
  lemma {:induction false} CountsShrink(paths: seq<string>, child: ScopeRules, parent: ScopeRules, result: Tree,
                                        baseline: Tree)
    requires forall path <- paths :: MatchesAny(path, child.generated) ==> MatchesAny(path, parent.generated)
    ensures |Countable(paths, parent)| <= |Countable(paths, child)|
    ensures TotalBytes(Countable(paths, parent), result, baseline)
            <= TotalBytes(Countable(paths, child), result, baseline)
  {
    if paths != [] {
      var n := |paths| - 1;
      CountsShrink(paths[..n], child, parent, result, baseline);
      BytesAppend(Countable(paths[..n], child), paths[n], result, baseline);
      BytesAppend(Countable(paths[..n], parent), paths[n], result, baseline);
      assert paths[n] in paths;
    }
  }

  lemma BytesAppend(paths: seq<string>, path: string, result: Tree, baseline: Tree)
    ensures TotalBytes(paths + [path], result, baseline)
            == TotalBytes(paths, result, baseline) + SizeOf(path, result, baseline)
    ensures paths + [] == paths
  {
    assert (paths + [path])[..|paths|] == paths;
  }

  lemma PermittedUp(child: ScopeRules, parent: ScopeRules, path: string)
    requires IsScopeSubset(child, parent) && Permitted(child, path)
    ensures Permitted(parent, path)
  {
    var pattern :| pattern in child.allowed && PathMatchesGlob(path, pattern);
    assert pattern in parent.allowed;
  }

  /** A narrower scope is stricter on every diff it exempts no further. */
  lemma CleanUp(child: ScopeRules, parent: ScopeRules, d: ManifestDiff, m: Manifests)
    requires IsScopeSubset(child, parent) && Clean(d, child, m)
    requires forall path <- ChangedPaths(d) ::
               MatchesAny(path, child.generated) ==> MatchesAny(path, parent.generated)
    ensures Clean(d, parent, m)
  {
    var changed := ChangedPaths(d);
    forall path <- changed ensures Permitted(parent, path) {
      PermittedUp(child, parent, path);
    }
    assert forall path <- d.added :: path in changed;
    CountsShrink(changed, child, parent, m.result.GetOr(map[]), m.baseline.GetOr(map[]));
  }

  lemma GeneratedUp(path: string, fewer: set<string>, more: set<string>)
    requires fewer <= more && MatchesAny(path, fewer)
    ensures MatchesAny(path, more)
  {
  }

  /** A diff that passes under the intersection passes under the request and under
      the ceiling, counts, bytes and exemptions included. */
  lemma MeetIsSound(a: ScopeRules, b: ScopeRules, d: ManifestDiff, m: Manifests)
    requires Clean(d, IntersectScope(a, b), m)
    ensures Clean(d, a, m) && Clean(d, b, m)
  {
    var meet := IntersectScope(a, b);
    forall path: string | MatchesAny(path, meet.generated)
      ensures MatchesAny(path, a.generated) && MatchesAny(path, b.generated)
    {
      GeneratedUp(path, meet.generated, a.generated);
      GeneratedUp(path, meet.generated, b.generated);
    }
    CleanUp(meet, a, d, m);
    CleanUp(meet, b, d, m);
  }

  /** What the intersection lets through: paths that one pattern common to both
      sides allows and that neither side forbids. */
  lemma MeetPermitsExactly(a: ScopeRules, b: ScopeRules, path: string)
    ensures Permitted(IntersectScope(a, b), path)
            <==> && !MatchesAny(path, a.forbidden) && !MatchesAny(path, b.forbidden)
                 && exists pattern <- a.allowed :: pattern in b.allowed && PathMatchesGlob(path, pattern)
  {
    var meet := IntersectScope(a, b);
    if MatchesAny(path, meet.allowed) {
      var pattern :| pattern in meet.allowed && PathMatchesGlob(path, pattern);
      assert pattern in a.allowed && pattern in b.allowed;
    }
  }

  /** Intersecting pattern lists is not intersecting what they match: here both
      sides let a path through and the intersection refuses it. */
  lemma MeetCanRefuseBoth() returns (a: ScopeRules, b: ScopeRules, path: string)
    ensures Permitted(a, path) && Permitted(b, path) && !Permitted(IntersectScope(a, b), path)
  {
    path := "x";
    a := ScopeRules({"*"}, {}, true, None, None, {});
    b := ScopeRules({"**"}, {}, true, None, None, {});
    StarStarMatches(path, false);
    assert FirstToken("*") == AnyName && AfterFirst("*") == "";
    assert path[..1] == path && path[1..] == "";
    assert TokenMatches(AnyName, path[..1], false) && Glob.Glob("", path[1..], false);
    assert PathMatchesGlob(path, "*") && PathMatchesGlob(path, "**");
    assert |"*"| != |"**"|;
    assert IntersectScope(a, b).allowed == {};
  }

  /** For any pair the order accepts, the same holds once the child's generated
      patterns are among the parent's. */
  lemma SubsetIsSound(child: ScopeRules, parent: ScopeRules, d: ManifestDiff, m: Manifests)
    requires Narrower(child, parent) && Clean(d, child, m)
    ensures Clean(d, parent, m)
  {
    forall path: string | MatchesAny(path, child.generated) ensures MatchesAny(path, parent.generated) {
      GeneratedUp(path, child.generated, parent.generated);
    }
    CleanUp(child, parent, d, m);
  }

  /* ---- Where is_scope_subset alone is not enough ---------------------------------------------------- */

  function ManifestsOf(b: Tree, r: Tree): Manifests {
    Manifests(Some(b), Some(r))
  }

  /** The parent passes every diff of two manifests that the child passes. */
  ghost predicate Stricter(child: ScopeRules, parent: ScopeRules) {
    forall b, r, d :: IsDiff(b, r, d) && Clean(d, child, ManifestsOf(b, r)) ==> Clean(d, parent, ManifestsOf(b, r))
  }

  /** A path the child lets through uncounted and the parent would count. */
  predicate Gap(child: ScopeRules, parent: ScopeRules, path: string) {
    && Permitted(child, path)
    && MatchesAny(path, child.generated) && !MatchesAny(path, parent.generated)
  }

  /** More paths than the parent's file ceiling `n`, all in scope and none exempt
      for the parent, of which the child counts no more than it allows. */
  ghost predicate Overflow(child: ScopeRules, parent: ScopeRules, n: nat, paths: seq<string>) {
    && NoDuplicates(paths) && |paths| == n + 1
    && (forall path <- paths :: Permitted(child, path) && !MatchesAny(path, parent.generated))
    && Within(|Countable(paths, child)|, child.maxChangedFiles)
  }

  /** Changing `paths` from one content to another of the given size. */
  function Filled(paths: seq<string>, digest: string, size: nat): Tree {
    map path | path in paths :: ManifestEntry(path, RegularFile, 0, size, Some(digest), None)
  }

  function Modifying(paths: seq<string>): ManifestDiff {
    ManifestDiff([], paths, [], [])
  }

  lemma ModifyingIsDiff(paths: seq<string>, size: nat)
    requires NoDuplicates(paths)
    ensures IsDiff(Filled(paths, "a", 0), Filled(paths, "b", size), Modifying(paths))
    ensures ChangedPaths(Modifying(paths)) == paths
  {
    assert "a"[0] != "b"[0];
    var b, r := Filled(paths, "a", 0), Filled(paths, "b", size);
    forall p <- paths ensures ContentAt(b, p) != ContentAt(r, p) {
    }
    assert r.Keys == b.Keys;
  }

  lemma {:induction false} SameSize(paths: seq<string>, r: Tree, b: Tree, size: nat)
    requires forall path <- paths :: path in r && r[path].size == size
    ensures size == 0 ==> TotalBytes(paths, r, b) == 0
    ensures paths != [] ==> TotalBytes(paths, r, b) >= size
  {
    if paths != [] {
      var n := |paths| - 1;
      assert paths[n] in paths && forall path <- paths[..n] :: path in paths;
      SameSize(paths[..n], r, b, size);
    }
  }

  lemma {:induction false} AllCounted(paths: seq<string>, scope: ScopeRules)
    requires forall path <- paths :: !MatchesAny(path, scope.generated)
    ensures Countable(paths, scope) == paths
  {
    hide MatchesAny;
    if paths != [] {
      var n := |paths| - 1;
      assert paths == paths[..n] + [paths[n]];
      AllCounted(paths[..n], scope);
    }
  }

  /** Exactly the paths that are not generated are counted, each as often as listed. */
  lemma {:induction false} CountedArePart(paths: seq<string>, scope: ScopeRules)
    ensures forall path :: path in Countable(paths, scope) <==> path in paths && !MatchesAny(path, scope.generated)
    ensures NoDuplicates(paths) ==> NoDuplicates(Countable(paths, scope))
  {
    hide MatchesAny;
    if paths != [] {
      var n := |paths| - 1;
      var kept := Countable(paths[..n], scope);
      CountedArePart(paths[..n], scope);
      assert paths == paths[..n] + [paths[n]];
      if NoDuplicates(paths) {
        assert forall path <- kept :: path != paths[n];
        DisjointLists(kept, [paths[n]]);
        assert kept + [] == kept;
      }
    }
  }

  /** Counting what another scope counts, or a part of it, never gives more. */
  lemma {:induction false} CountOfCounted(paths: seq<string>, one: ScopeRules, other: ScopeRules)
    ensures |Countable(Countable(paths, one), other)| <= |Countable(paths, other)|
  {
    hide MatchesAny;
    if paths != [] {
      var n := |paths| - 1;
      var kept := Countable(paths[..n], one);
      CountOfCounted(paths[..n], one, other);
      assert (kept + [paths[n]])[..|kept|] == kept && kept + [] == kept;
    }
  }

  lemma {:induction false} CountOfPrefix(paths: seq<string>, k: nat, scope: ScopeRules)
    requires k <= |paths|
    ensures |Countable(paths[..k], scope)| <= |Countable(paths, scope)|
  {
    hide MatchesAny;
    if k < |paths| {
      var n := |paths| - 1;
      assert paths[..n][..k] == paths[..k];
      CountOfPrefix(paths[..n], k, scope);
    } else {
      assert paths[..k] == paths;
    }
  }

  /** A diff of which a scope exempts everything it lets through. */
  lemma ExemptPasses(scope: ScopeRules, d: ManifestDiff, m: Manifests)
    requires forall path <- ChangedPaths(d) :: Permitted(scope, path) && MatchesAny(path, scope.generated)
    ensures Clean(d, scope, m)
  {
    hide MatchesAny, Permitted;
    NothingCountable(ChangedPaths(d), scope);
    assert forall path <- d.added :: path in ChangedPaths(d);
  }

  lemma AddingIsDiff(path: string, size: nat)
    ensures IsDiff(map[], Filled([path], "b", size), ManifestDiff([path], [], [], []))
    ensures ChangedPaths(ManifestDiff([path], [], [], [])) == [path]
  {
    var none: Tree := map[];
    var r := Filled([path], "b", size);
    assert r.Keys - none.Keys == {path} && none.Keys - r.Keys == {};
    assert path in [path];
  }

  lemma GrowthIsCounted(scope: ScopeRules, path: string, b: Tree, r: Tree, size: nat)
    requires !MatchesAny(path, scope.generated) && r == Filled([path], "b", size)
    requires scope.maxChangedBytes.Some? && size > scope.maxChangedBytes.value
    ensures !Clean(Modifying([path]), scope, ManifestsOf(b, r))
  {
    hide MatchesAny, Permitted;
    AllCounted([path], scope);
    SameSize([path], r, b, size);
    assert ChangedPaths(Modifying([path])) == [path];
  }

  /** One gap path is fatal under a parent that forbids new files or caps the
      bytes: the child passes its addition, or its growth, and the parent does not. */
  lemma GapBreaks(child: ScopeRules, parent: ScopeRules, path: string) returns (b: Tree, r: Tree, d: ManifestDiff)
    requires Gap(child, parent, path) && (!parent.allowNewFiles || parent.maxChangedBytes.Some?)
    ensures IsDiff(b, r, d) && Clean(d, child, ManifestsOf(b, r)) && !Clean(d, parent, ManifestsOf(b, r))
  {
    hide MatchesAny, Permitted, IsDiff, Filled;
    var size := parent.maxChangedBytes.GetOr(0) + 1;
    if !parent.allowNewFiles {
      b, r, d := map[], Filled([path], "b", size), ManifestDiff([path], [], [], []);
      AddingIsDiff(path, size);
      assert path in d.added;
    } else {
      b, r, d := Filled([path], "a", 0), Filled([path], "b", size), Modifying([path]);
      ModifyingIsDiff([path], size);
      GrowthIsCounted(parent, path, b, r, size);
    }
    ExemptPasses(child, d, ManifestsOf(b, r));
  }

  lemma EmptyFilesAreFree(child: ScopeRules, paths: seq<string>, b: Tree)
    requires NoDuplicates(paths) && Within(|Countable(paths, child)|, child.maxChangedFiles)
    requires forall path <- paths :: Permitted(child, path)
    ensures Clean(Modifying(paths), child, ManifestsOf(b, Filled(paths, "b", 0)))
  {
    hide MatchesAny, Permitted, NoDuplicates, TotalBytes, Countable;
    CountedArePart(paths, child);
    SameSize(Countable(paths, child), Filled(paths, "b", 0), b, 0);
    assert ChangedPaths(Modifying(paths)) == paths;
  }

  lemma OverCeiling(scope: ScopeRules, paths: seq<string>, m: Manifests)
    requires scope.maxChangedFiles.Some? && |paths| > scope.maxChangedFiles.value
    requires forall path <- paths :: !MatchesAny(path, scope.generated)
    ensures !Clean(Modifying(paths), scope, m)
  {
    hide MatchesAny, Permitted, BytesOf, Countable;
    AllCounted(paths, scope);
    assert ChangedPaths(Modifying(paths)) == paths;
  }

  /** Under a parent with a file ceiling an overflow is fatal too. */
  lemma OverflowBreaks(child: ScopeRules, parent: ScopeRules, paths: seq<string>)
    returns (b: Tree, r: Tree, d: ManifestDiff)
    requires parent.maxChangedFiles.Some? && Overflow(child, parent, parent.maxChangedFiles.value, paths)
    ensures IsDiff(b, r, d) && Clean(d, child, ManifestsOf(b, r)) && !Clean(d, parent, ManifestsOf(b, r))
  {
    b, r, d := Filled(paths, "a", 0), Filled(paths, "b", 0), Modifying(paths);
    hide MatchesAny, Permitted, IsDiff, Filled, Clean, Countable, NoDuplicates;
    ModifyingIsDiff(paths, 0);
    EmptyFilesAreFree(child, paths, b);
    OverCeiling(parent, paths, ManifestsOf(b, r));
  }

  /** A clean diff that is over the parent's file ceiling holds an overflow. */
  lemma OverflowInside(child: ScopeRules, parent: ScopeRules, n: nat, b: Tree, r: Tree, d: ManifestDiff)
    returns (paths: seq<string>)
    requires IsDiff(b, r, d) && Clean(d, child, ManifestsOf(b, r))
    requires |Countable(ChangedPaths(d), parent)| > n
    ensures Overflow(child, parent, n, paths)
  {
    hide MatchesAny, Permitted, IsDiff, Countable, BytesOf;
    var changed := ChangedPaths(d);
    var counted := Countable(changed, parent);
    ChangesAreDifferences(b, r, d);
    CountedArePart(changed, parent);
    paths := counted[..n + 1];
    assert forall path <- paths :: path in counted;
    CountOfPrefix(counted, n + 1, child);
    CountOfCounted(changed, parent, child);
  }

  predicate NeverCounts(scope: ScopeRules) {
    scope.allowNewFiles && scope.maxChangedBytes.None?
  }

  /** Exactly when a pair the order accepts is stricter in effect, on every diff of
      two manifests: under a parent that forbids new files or caps bytes, when every
      in-scope path the child exempts is exempt for the parent; under one that only
      caps files, when no overflow exists; under one without ceilings, always. */
  lemma SubsetStricterExactly(child: ScopeRules, parent: ScopeRules)
    requires IsScopeSubset(child, parent)
    ensures Stricter(child, parent)
            <==> if !NeverCounts(parent) then forall path: string :: !Gap(child, parent, path)
                 else parent.maxChangedFiles.Some? ==>
                   forall paths :: !Overflow(child, parent, parent.maxChangedFiles.value, paths)
  {
    if !NeverCounts(parent) {
      if forall path: string :: !Gap(child, parent, path) {
        NoGapIsStricter(child, parent);
      } else {
        var path: string :| Gap(child, parent, path);
        var b, r, d := GapBreaks(child, parent, path);
      }
    } else if parent.maxChangedFiles.Some?
              && exists paths :: Overflow(child, parent, parent.maxChangedFiles.value, paths) {
      var paths :| Overflow(child, parent, parent.maxChangedFiles.value, paths);
      var b, r, d := OverflowBreaks(child, parent, paths);
    } else {
      NoOverflowIsStricter(child, parent);
    }
  }

  lemma NoGapIsStricter(child: ScopeRules, parent: ScopeRules)
    requires IsScopeSubset(child, parent) && forall path: string :: !Gap(child, parent, path)
    ensures Stricter(child, parent)
  {
    forall b, r, d | IsDiff(b, r, d) && Clean(d, child, ManifestsOf(b, r)) ensures Clean(d, parent, ManifestsOf(b, r)) {
      forall path <- ChangedPaths(d) | MatchesAny(path, child.generated) ensures MatchesAny(path, parent.generated) {
        assert !Gap(child, parent, path);
      }
      CleanUp(child, parent, d, ManifestsOf(b, r));
    }
  }

  lemma NoOverflowIsStricter(child: ScopeRules, parent: ScopeRules)
    requires IsScopeSubset(child, parent) && NeverCounts(parent)
    requires parent.maxChangedFiles.Some? ==>
               forall paths :: !Overflow(child, parent, parent.maxChangedFiles.value, paths)
    ensures Stricter(child, parent)
  {
    forall b, r, d | IsDiff(b, r, d) && Clean(d, child, ManifestsOf(b, r)) ensures Clean(d, parent, ManifestsOf(b, r)) {
      forall path <- ChangedPaths(d) ensures Permitted(parent, path) {
        PermittedUp(child, parent, path);
      }
      if parent.maxChangedFiles.Some? && |Countable(ChangedPaths(d), parent)| > parent.maxChangedFiles.value {
        var paths := OverflowInside(child, parent, parent.maxChangedFiles.value, b, r, d);
        assert false;
      }
    }
  }
}
