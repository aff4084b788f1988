/** Task contracts and verification results (domain/models.py), with the checks
    the model classes make when a value is built. */
module Contracts {
  import opened Wrappers
  import opened Lifecycle
  import opened Policy
  import opened Scope

  datatype VerificationMethod = Command | Assertion | Manual

  /** `commandId` is only read when the method is a command. */
  datatype VerificationSpec = VerificationSpec(
    verificationMethod: VerificationMethod, commandId: string, expectedExitCodes: seq<int>)

  datatype AcceptanceCriterion = AcceptanceCriterion(id: string, mandatory: bool, verification: VerificationSpec)

  datatype TaskContract = TaskContract(
    contractId: string, digest: string, scope: ScopeRules, criteria: seq<AcceptanceCriterion>,
    capabilities: Capabilities, budget: Budget)

  datatype CriterionResult = Passed | FailedCriterion | NotVerified | NotApplicable | Waived

  datatype CriterionVerification = CriterionVerification(
    id: string, result: CriterionResult, evidenceRefs: seq<string>, waiverApprovalRef: string)

  datatype Severity = Blocker | High | Medium | Low | Info

  datatype Finding = Finding(id: string, severity: Severity)

  datatype Verdict = Pass | Rework | Reject | ManualReview

  /** What a verification result says it is about. */
  datatype Names = Names(taskId: string, contractDigest: string, snapshotDigest: string, evidenceDigest: string)

  datatype VerificationResult = VerificationResult(
    verificationId: string, names: Names, decision: Verdict, criteria: seq<CriterionVerification>,
    scopeViolations: seq<string>, securityFindings: seq<Finding>, qualityFindings: seq<Finding>,
    requiredFixes: seq<string>, prohibitedChanges: seq<string>, remainingRisks: seq<string>)

  /** What building a VerificationResult checks; an answer that fails this raises. */
  predicate WellFormed(r: VerificationResult) {
    && r.criteria != []
    && (forall c <- r.criteria :: c.result == Waived ==> c.waiverApprovalRef != "")
    && (r.decision == Rework ==> r.requiredFixes != [])
    && (r.decision == Reject ==> r.remainingRisks != [] || r.scopeViolations != [] || r.securityFindings != [])
  }

  /** The four ways to be malformed. */
  lemma MalformedExactly(r: VerificationResult)
    ensures !WellFormed(r) <==>
              || |r.criteria| == 0
              || (exists i :: 0 <= i < |r.criteria|
                              && r.criteria[i].result == Waived && |r.criteria[i].waiverApprovalRef| == 0)
              || (r.decision == Rework && |r.requiredFixes| == 0)
              || (r.decision == Reject && |r.remainingRisks + r.scopeViolations| == 0 && |r.securityFindings| == 0)
  {
    forall i | 0 <= i < |r.criteria| ensures r.criteria[i] in r.criteria {
    }
  }
}
