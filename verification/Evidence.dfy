/** Freezing a worktree before and after the host checks (execution/evidence.py),
    and what a series of frozen attempts says about the whole change. */
module Evidence {
  import opened Wrappers
  import opened Manifest
  import opened Scope

  /** One host check: what it was, how it ended, and the evidence records that
      its output streams gave rise to. */
  datatype Execution = Execution(
    commandId: string, exitCode: Option<int>, timedOut: bool, outputCapExceeded: bool, evidenceIds: seq<string>)

  /** What the host observes of one attempt. */
  datatype Observed = Observed(result: seq<ManifestEntry>, postTest: seq<ManifestEntry>, executions: seq<Execution>)

  datatype Frozen = Frozen(
    baseline: seq<ManifestEntry>, result: seq<ManifestEntry>, postTest: seq<ManifestEntry>,
    diff: ManifestDiff, scopeViolations: seq<Violation>, executions: seq<Execution>,
    evidenceIds: seq<string>, sideEffectDiff: ManifestDiff)
  {
    /** Everything the host checks did to the worktree. */
    function SideEffects(): seq<string> {
      ChangedPaths(sideEffectDiff)
    }

    function AsRound(): Round {
      Round(ByPath(baseline), ByPath(result), ByPath(postTest), diff, sideEffectDiff)
    }
  }

  function EvidenceOf(executions: seq<Execution>): seq<string> {
    if executions == [] then []
    else
      var n := |executions| - 1;
      EvidenceOf(executions[..n]) + executions[n].evidenceIds
  }

  /** The evidence is that of all executions, in their order. */
  lemma {:induction false} EvidenceAddsUp(some: seq<Execution>, more: seq<Execution>)
    ensures EvidenceOf(some + more) == EvidenceOf(some) + EvidenceOf(more)
  {
    if more == [] {
      assert some + more == some;
    } else {
      var n := |more| - 1;
      EvidenceAddsUp(some, more[..n]);
      assert (some + more)[..|some| + n] == some + more[..n];
    }
  }

  lemma {:induction false} EvidenceIsAll(executions: seq<Execution>, id: string)
    ensures id in EvidenceOf(executions)
            <==> exists i :: 0 <= i < |executions| && id in executions[i].evidenceIds
  {
    if executions != [] {
      var n := |executions| - 1;
      EvidenceIsAll(executions[..n], id);
      if i :| 0 <= i < n && id in executions[..n][i].evidenceIds {
        assert id in executions[i].evidenceIds;
      }
      if i :| 0 <= i < n && id in executions[i].evidenceIds {
        assert id in executions[..n][i].evidenceIds;
      }
    }
  }

  ghost predicate FreezeFits(f: Frozen, baseline: seq<ManifestEntry>, seen: Observed, scope: Option<ScopeRules>) {
    && f.baseline == baseline && f.result == seen.result && f.postTest == seen.postTest
    && f.executions == seen.executions && f.evidenceIds == EvidenceOf(seen.executions)
    && RoundFits(f.AsRound())
    && (f.scopeViolations == [] <==>
          scope.Some? ==> Clean(f.diff, scope.value, Manifests(Some(ByPath(baseline)), Some(ByPath(seen.result)))))
    && (scope.Some? ==> NamesPaths(f.scopeViolations, f.diff, scope.value))
  }

  /** A frozen attempt on `baseline` under a granted scope. */
  ghost predicate ObservedAs(f: Frozen, baseline: seq<ManifestEntry>, scope: ScopeRules) {
    FreezeFits(f, baseline, Observed(f.result, f.postTest, f.executions), Some(scope))
  }

  lemma FreezeIsObserved(f: Frozen, baseline: seq<ManifestEntry>, seen: Observed, scope: ScopeRules)
    requires FreezeFits(f, baseline, seen, Some(scope))
    ensures ObservedAs(f, baseline, scope) && Observed(f.result, f.postTest, f.executions) == seen
  {
    assert Observed(f.result, f.postTest, f.executions) == seen;
  }

  /** `freeze_and_validate`: the worker's changes are judged on the snapshot taken
      before any host check; what the checks change is reported on its own. */
  method FreezeAndValidate(baseline: seq<ManifestEntry>, seen: Observed, scope: Option<ScopeRules>)
    returns (f: Frozen)
    ensures FreezeFits(f, baseline, seen, scope)
  {
    var diff := DiffManifests(baseline, seen.result);
    var violations: seq<Violation> := [];
    if scope.Some? {
      violations := FindScopeViolations(
        diff, scope.value, Manifests(Some(ByPath(baseline)), Some(ByPath(seen.result))));
    }
    var sideEffects := DiffManifests(seen.result, seen.postTest);
    var evidence := [];
    for i := 0 to |seen.executions|
      invariant evidence == EvidenceOf(seen.executions[..i])
    {
      assert seen.executions[..i + 1][..i] == seen.executions[..i];
      evidence := evidence + seen.executions[i].evidenceIds;
    }
    assert seen.executions[..|seen.executions|] == seen.executions;
    f := Frozen(baseline, seen.result, seen.postTest, diff, violations, seen.executions, evidence, sideEffects);
  }

  /* ---- The whole change ---------------------------------------------------------------- */

  ghost predicate AttemptAt(frozen: seq<Frozen>, i: nat, scope: ScopeRules)
    requires i < |frozen|
  {
    ObservedAs(frozen[i], frozen[i].baseline, scope)
  }

  /** The attempts of one Run, each starting from what the one before it left. */
  ghost predicate Attempts(frozen: seq<Frozen>, scope: ScopeRules) {
    && (forall i :: 0 <= i < |frozen| ==> AttemptAt(frozen, i, scope))
    && (forall i, j :: 0 <= i < j < |frozen| && j == i + 1 ==> frozen[j].baseline == frozen[i].postTest)
  }

  predicate Spotless(f: Frozen) {
    f.scopeViolations == [] && f.SideEffects() == []
  }

  function Rounds(frozen: seq<Frozen>): seq<Round> {
    seq(|frozen|, i requires 0 <= i < |frozen| => frozen[i].AsRound())
  }

  predicate ChangedOverall(frozen: seq<Frozen>, path: string) {
    && frozen != []
    && ContentAt(ByPath(frozen[0].baseline), path) != ContentAt(ByPath(frozen[|frozen| - 1].postTest), path)
  }

  lemma AttemptsRollForward(frozen: seq<Frozen>, scope: ScopeRules)
    requires Attempts(frozen, scope)
    ensures RollsForward(Rounds(frozen))
  {
    hide Clean, IsDiff;
    forall i | 0 <= i < |frozen| ensures RoundFits(Rounds(frozen)[i]) {
      assert AttemptAt(frozen, i, scope);
    }
  }

  lemma SpotlessIsClean(f: Frozen, requested: ScopeRules, ceiling: ScopeRules, path: string)
    requires ObservedAs(f, f.baseline, IntersectScope(requested, ceiling)) && Spotless(f)
    requires Reports(f.AsRound(), path)
    ensures Permitted(requested, path) && Permitted(ceiling, path)
  {
    var m := Manifests(Some(ByPath(f.baseline)), Some(ByPath(f.result)));
    MeetIsSound(requested, ceiling, f.diff, m);
  }

  /** If every attempt was spotless, everything that changed since the first
      checkout is permitted by the request's scope and by the ceiling's. */
  lemma SpotlessAttemptsStayInScope(frozen: seq<Frozen>, requested: ScopeRules, ceiling: ScopeRules, path: string)
    requires Attempts(frozen, IntersectScope(requested, ceiling))
    requires forall f <- frozen :: Spotless(f)
    requires ChangedOverall(frozen, path)
    ensures Permitted(requested, path) && Permitted(ceiling, path)
  {
    hide FreezeFits, RoundFits;
    AttemptsRollForward(frozen, IntersectScope(requested, ceiling));
    var i := EveryChangeIsReported(Rounds(frozen), path);
    assert frozen[i] in frozen && AttemptAt(frozen, i, IntersectScope(requested, ceiling));
    SpotlessIsClean(frozen[i], requested, ceiling, path);
  }

  /** Whatever a spotless attempt leaves changed is permitted. */
  lemma SpotlessChange(f: Frozen, requested: ScopeRules, ceiling: ScopeRules, path: string)
    requires ObservedAs(f, f.baseline, IntersectScope(requested, ceiling)) && Spotless(f)
    requires ContentAt(ByPath(f.baseline), path) != ContentAt(ByPath(f.postTest), path)
    ensures Permitted(requested, path) && Permitted(ceiling, path)
  {
    hide Clean, IsDiff, Permitted, IntersectScope;
    var one := [f.AsRound()];
    assert RollsForward(one);
    var i := EveryChangeIsReported(one, path);
    SpotlessIsClean(f, requested, ceiling, path);
  }

  /** Everything changed between two trees is permitted by both scopes. */
  ghost predicate StaysIn(before: seq<ManifestEntry>, after: seq<ManifestEntry>, requested: ScopeRules,
                          ceiling: ScopeRules) {
    forall path :: ContentAt(ByPath(before), path) != ContentAt(ByPath(after), path) ==>
                     Permitted(requested, path) && Permitted(ceiling, path)
  }

  /** When only the last attempt is known to be spotless, the whole change stays in
      both scopes if and only if what had changed before that attempt does. */
  lemma LastSpotlessIsEnoughExactly(frozen: seq<Frozen>, requested: ScopeRules, ceiling: ScopeRules)
    requires frozen != [] && Attempts(frozen, IntersectScope(requested, ceiling))
    requires Spotless(frozen[|frozen| - 1])
    ensures StaysIn(frozen[0].baseline, frozen[|frozen| - 1].postTest, requested, ceiling)
            <==> StaysIn(frozen[0].baseline, frozen[|frozen| - 1].baseline, requested, ceiling)
  {
    hide ObservedAs, Permitted, IntersectScope;
    var first, last := ByPath(frozen[0].baseline), frozen[|frozen| - 1];
    assert AttemptAt(frozen, |frozen| - 1, IntersectScope(requested, ceiling));
    forall path | ContentAt(ByPath(last.baseline), path) != ContentAt(ByPath(last.postTest), path)
      ensures Permitted(requested, path) && Permitted(ceiling, path)
    {
      SpotlessChange(last, requested, ceiling, path);
    }
  }

  /** The last attempt alone says nothing about the whole: here it changes nothing
      and is spotless, yet a forbidden file has been added since the checkout. */
  lemma LastSpotlessIsNotEnough() returns (frozen: seq<Frozen>, scope: ScopeRules, path: string)
    ensures Attempts(frozen, scope) && |frozen| == 2 && Spotless(frozen[1])
    ensures ChangedOverall(frozen, path) && !Permitted(scope, path)
  {
    path := "secret";
    scope := ScopeRules({}, {}, true, None, None, {});
    var tree := [ManifestEntry(path, RegularFile, 0, 1, Some("digest"), None)];
    var none := ManifestDiff([], [], [], []);
    var first := Frozen([], tree, tree, ManifestDiff([path], [], [], []), [MatchesNoAllowed(path)], [], [],
                        ManifestDiff([], [], [], [path]));
    var second := Frozen(tree, tree, tree, ManifestDiff([], [], [], [path]), [], [], [],
                         ManifestDiff([], [], [], [path]));
    frozen := [first, second];
    assert ByPath(tree) == map[path := tree[0]] by {
      assert tree[..0] == [];
    }
    assert path in ChangedPaths(first.diff);
    assert AttemptAt(frozen, 0, scope) && AttemptAt(frozen, 1, scope);
  }
}
