/** Rework contracts and budgets (application/rework.py, application/usage.py). */
module Rework {
  import opened Wrappers
  import opened Lifecycle
  import opened Policy
  import opened Scope
  import opened Contracts

  datatype RequiredFix = RequiredFix(description: string, allowedPaths: set<string>, verifiedBy: VerificationMethod)

  datatype ReworkContract = ReworkContract(
    reworkId: string, parentDigest: string, parentVerificationId: string, parentSnapshotDigest: string,
    attemptNumber: nat,
    failedIds: set<string>, findingIds: seq<string>, requiredFixes: seq<RequiredFix>,
    prohibitedChanges: seq<string>, effectiveScope: ScopeRules,
    additionalCapabilities: Option<Capabilities>, budget: Budget, digest: string)

  /** The digest of a rework contract, its own digest field left empty. */
  type ReworkSealer = ReworkContract -> string

  datatype ReworkError = NotARework | InvalidContract | ScopeWidened

  /** `failed_criteria_ids_of` */
  function FailedIds(r: VerificationResult): set<string> {
    set c <- r.criteria | c.result !in {Passed, Waived} :: c.id
  }

  /** A criterion has failed unless its answer is a pass or a waiver: one that was
      not verified or called not applicable has. */
  lemma FailedMeans(r: VerificationResult, id: string)
    ensures id in FailedIds(r) <==>
              exists c <- r.criteria ::
                c.id == id && (c.result == FailedCriterion || c.result == NotVerified || c.result == NotApplicable)
  {
    forall c <- r.criteria
      ensures c.result !in {Passed, Waived}
              <==> c.result == FailedCriterion || c.result == NotVerified || c.result == NotApplicable
    {
    }
  }

  /** `detect_no_progress` */
  predicate NoProgress(previous: Option<set<string>>, current: set<string>) {
    previous.Some? && current != {} && current == previous.value
  }

  /** `check_rework_budget` passes. */
  predicate ReworkAllowed(attemptNumber: nat, budget: Budget) {
    attemptNumber <= budget.maxReworkIterations
  }

  /** When a verdict can be turned into a rework contract at all. */
  predicate Reworkable(contract: TaskContract, r: VerificationResult, attemptNumber: nat, scope: Option<ScopeRules>) {
    && r.decision == Contracts.Rework
    && attemptNumber >= 1 && FailedIds(r) != {}
    && r.requiredFixes != [] && "" !in r.requiredFixes
    && (scope.Some? ==> IsScopeSubset(scope.value, contract.scope))
  }

  /** Why none can be made of a verdict: it asks for no rework, nothing failed, or it
      does not say how to fix it. */
  lemma UnreworkableExactly(contract: TaskContract, r: VerificationResult, attemptNumber: nat)
    ensures !Reworkable(contract, r, attemptNumber, None) <==>
              || r.decision != Contracts.Rework || attemptNumber == 0
              || (forall c <- r.criteria :: c.result == Passed || c.result == Waived)
              || |r.requiredFixes| == 0 || (exists fix <- r.requiredFixes :: |fix| == 0)
  {
    if c :| c in r.criteria && c.result != Passed && c.result != Waived {
      assert c.id in FailedIds(r);
    }
  }

  /** The verification method of the first criterion that failed, or a command. */
  ghost predicate VerifiedAsFirstFailed(criteria: seq<AcceptanceCriterion>, failed: set<string>,
                                        m: VerificationMethod) {
    && (forall i :: 0 <= i < |criteria| && criteria[i].id in failed
                    && (forall j :: 0 <= j < i ==> criteria[j].id !in failed)
          ==> m == criteria[i].verification.verificationMethod)
    && ((forall c <- criteria :: c.id !in failed) ==> m == Command)
  }

  /** A rework contract binds the failed criteria of its verdict and one fix for
      each required one, and never widens the scope or the budget. */
  ghost predicate Binds(w: ReworkContract, contract: TaskContract, r: VerificationResult, attemptNumber: nat) {
    && w.parentDigest == contract.digest && w.parentVerificationId == r.verificationId
    && w.parentSnapshotDigest == r.names.snapshotDigest
    && w.attemptNumber == attemptNumber && w.failedIds == FailedIds(r) && w.failedIds != {}
    && |w.requiredFixes| == |r.requiredFixes|
    && (forall i :: 0 <= i < |r.requiredFixes| ==>
          && w.requiredFixes[i].description == r.requiredFixes[i]
          && w.requiredFixes[i].allowedPaths == contract.scope.allowed)
    && (forall fix <- w.requiredFixes :: VerifiedAsFirstFailed(contract.criteria, w.failedIds, fix.verifiedBy))
    && |w.findingIds| == |r.securityFindings + r.qualityFindings|
    && (forall i :: 0 <= i < |w.findingIds| ==> w.findingIds[i] == (r.securityFindings + r.qualityFindings)[i].id)
    && w.prohibitedChanges == r.prohibitedChanges
    && IsScopeSubset(w.effectiveScope, contract.scope)
    && w.budget == contract.budget
  }

  function FindingIds(findings: seq<Finding>): seq<string> {
    seq(|findings|, i requires 0 <= i < |findings| => findings[i].id)
  }

  /** How the fixes are to be verified: as the first criterion of the contract that failed. */
  method MethodOfFirstFailed(criteria: seq<AcceptanceCriterion>, failed: set<string>) returns (m: VerificationMethod)
    ensures VerifiedAsFirstFailed(criteria, failed, m)
  {
    m := Command;
    var i := 0;
    while i < |criteria|
      invariant 0 <= i <= |criteria| && m == Command
      invariant forall j :: 0 <= j < i ==> criteria[j].id !in failed
    {
      if criteria[i].id in failed {
        return criteria[i].verification.verificationMethod;
      }
      i := i + 1;
    }
  }

  /** One fix for each description; an empty description makes no valid fix. */
  method MakeFixes(descriptions: seq<string>, allowed: set<string>, verifiedBy: VerificationMethod)
    returns (fixes: Option<seq<RequiredFix>>)
    ensures fixes.None? <==> "" in descriptions
    ensures fixes.Some? ==>
              && |fixes.value| == |descriptions|
              && forall i :: 0 <= i < |descriptions| ==>
                   fixes.value[i] == RequiredFix(descriptions[i], allowed, verifiedBy)
  {
    var made := [];
    for i := 0 to |descriptions|
      invariant |made| == i && "" !in descriptions[..i]
      invariant forall j :: 0 <= j < i ==> made[j] == RequiredFix(descriptions[j], allowed, verifiedBy)
    {
      if descriptions[i] == "" {
        return None;
      }
      made := made + [RequiredFix(descriptions[i], allowed, verifiedBy)];
    }
    assert descriptions[..|descriptions|] == descriptions;
    return Some(made);
  }

  /** `build_rework_contract`: it succeeds exactly for a reworkable verdict. */
  method BuildReworkContract(contract: TaskContract, r: VerificationResult, attemptNumber: nat, reworkId: string,
                             effectiveScope: Option<ScopeRules>, additional: Option<Capabilities>,
                             seal: ReworkSealer)
    returns (built: Result<ReworkContract, ReworkError>)
    ensures built.Success? <==> Reworkable(contract, r, attemptNumber, effectiveScope)
    ensures built.Success? ==>
              && Binds(built.value, contract, r, attemptNumber)
              && built.value.reworkId == reworkId && built.value.additionalCapabilities == additional
              && built.value.effectiveScope == effectiveScope.GetOr(contract.scope)
              && built.value.digest == seal(built.value.(digest := ""))
    ensures built == Failure(NotARework) <==> r.decision != Contracts.Rework
    ensures built == Failure(ScopeWidened) <==>
              && Reworkable(contract, r, attemptNumber, None)
              && effectiveScope.Some? && !IsScopeSubset(effectiveScope.value, contract.scope)
  {
    hide VerifiedAsFirstFailed, IsScopeSubset, FailedIds;
    SubsetIsPreorder(contract.scope, contract.scope, contract.scope);
    if r.decision != Contracts.Rework {
      return Failure(NotARework);
    }
    var failed := FailedIds(r);
    var verifiedBy := MethodOfFirstFailed(contract.criteria, failed);
    var fixes := MakeFixes(r.requiredFixes, contract.scope.allowed, verifiedBy);
    if fixes.None? {
      return Failure(InvalidContract);
    }
    if attemptNumber < 1 || failed == {} || fixes.value == [] {
      return Failure(InvalidContract);
    }
    assert FindingIds(r.securityFindings) + FindingIds(r.qualityFindings)
        == FindingIds(r.securityFindings + r.qualityFindings);
    var scope := effectiveScope.GetOr(contract.scope);
    if !IsScopeSubset(scope, contract.scope) {
      return Failure(ScopeWidened);
    }
    var draft := ReworkContract(
      reworkId, contract.digest, r.verificationId, r.names.snapshotDigest, attemptNumber, failed,
      FindingIds(r.securityFindings) + FindingIds(r.qualityFindings), fixes.value,
      r.prohibitedChanges, scope, additional, contract.budget, "");
    return Success(draft.(digest := seal(draft)));
  }

  /* ---- Usage -------------------------------------------------------------------------------- */

  datatype UsageRecord = UsageRecord(turns: Option<nat>, inputTokens: Option<nat>, outputTokens: Option<nat>)

  /** `accumulate_usage`, with its flag for a rework. */
  function AccumulateUsage(used: BudgetUsage, u: UsageRecord, rework: bool): BudgetUsage {
    BudgetUsage(used.turnsUsed + u.turns.GetOr(0),
                used.tokensUsed + u.inputTokens.GetOr(0) + u.outputTokens.GetOr(0),
                used.reworkUsed + if rework then 1 else 0)
  }

  /** `check_budget` passes. */
  predicate WithinBudget(used: BudgetUsage, ceiling: Budget) {
    used.turnsUsed <= ceiling.maxTurns && used.reworkUsed <= ceiling.maxReworkIterations
  }

  /** One call of `accumulate_usage`. */
  datatype Booking = Booking(usage: UsageRecord, rework: bool)

  function AccumulateAll(used: BudgetUsage, bookings: seq<Booking>): BudgetUsage {
    if bookings == [] then used
    else
      var n := |bookings| - 1;
      AccumulateUsage(AccumulateAll(used, bookings[..n]), bookings[n].usage, bookings[n].rework)
  }

  /** The turns and tokens reported. */
  function Turns(bookings: seq<Booking>): nat {
    if bookings == [] then 0
    else
      var n := |bookings| - 1;
      Turns(bookings[..n]) + bookings[n].usage.turns.GetOr(0)
  }

  function Tokens(bookings: seq<Booking>): nat {
    if bookings == [] then 0
    else
      var n := |bookings| - 1;
      var u := bookings[n].usage;
      Tokens(bookings[..n]) + u.inputTokens.GetOr(0) + u.outputTokens.GetOr(0)
  }

  function Reworks(bookings: seq<Booking>): nat {
    if bookings == [] then 0
    else
      var n := |bookings| - 1;
      Reworks(bookings[..n]) + if bookings[n].rework then 1 else 0
  }

  /** The check of a budget. */
  lemma WithinBudgetMeans(used: BudgetUsage, ceiling: Budget)
    ensures !WithinBudget(used, ceiling)
            <==> used.turnsUsed > ceiling.maxTurns || used.reworkUsed > ceiling.maxReworkIterations
  {
  }

  /** Spending is never forgotten: what is used is what was used and every reported
      turn and token since, a ceiling once exceeded stays exceeded, and the rework
      axis of the check counts exactly the bookings flagged as reworks. */
  lemma {:induction false} SpendingOnlyGrows(used: BudgetUsage, bookings: seq<Booking>, ceiling: Budget)
    ensures WithinBudget(AccumulateAll(used, bookings), ceiling) ==> WithinBudget(used, ceiling)
    ensures AccumulateAll(used, bookings).reworkUsed == used.reworkUsed + Reworks(bookings)
    ensures AccumulateAll(used, bookings).turnsUsed == used.turnsUsed + Turns(bookings)
    ensures AccumulateAll(used, bookings).tokensUsed == used.tokensUsed + Tokens(bookings)
    ensures (forall b <- bookings :: !b.rework) ==> Reworks(bookings) == 0
  {
    if bookings != [] {
      var n := |bookings| - 1;
      assert bookings[n] in bookings && forall b <- bookings[..n] :: b in bookings;
      SpendingOnlyGrows(used, bookings[..n], ceiling);
    }
  }
}
