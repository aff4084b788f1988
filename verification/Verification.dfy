/** When a verifier's PASS is believed (application/verification.py,
    domain/validation.py): three checks by the host, each from its own sources. */
module Verification {
  import opened Wrappers
  import opened Lifecycle
  import opened Manifest
  import opened Scope
  import opened Policy
  import opened Contracts
  import opened Evidence

  datatype PassViolation =
    | CriterionMissing(id: string) | WaivedWithoutApproval(id: string) | CriterionNotPassed(id: string)
    | CriterionNotVerified(id: string) | UnresolvedFinding(id: string) | ReportedScopeViolations
    | NoSuchEvidence(id: string)
    | NeverExecuted(id: string) | CommandTimedOut(id: string) | OutputCapped(id: string) | WrongExit(id: string)
    | ChecksChangedTheWorktree
    | OutOfScope

  /* ---- The PASS invariant ------------------------------------------------------------- */

  function CriteriaById(r: VerificationResult): map<string, CriterionVerification> {
    Dict(r.criteria, (c: CriterionVerification) => c.id)
  }

  function MandatoryIds(contract: TaskContract): set<string> {
    set c <- contract.criteria | c.mandatory :: c.id
  }

  /** A criterion that counts as met: passed, or waived by a named approval. */
  predicate Met(v: CriterionVerification) {
    v.result == Passed || (v.result == Waived && v.waiverApprovalRef != "")
  }

  predicate MetIn(r: VerificationResult, id: string) {
    id in CriteriaById(r) && Met(CriteriaById(r)[id])
  }

  predicate Unresolved(f: Finding) {
    f.severity in {Blocker, High}
  }

  predicate PassInvariant(contract: TaskContract, r: VerificationResult) {
    && (forall c <- contract.criteria :: c.mandatory ==> MetIn(r, c.id))
    && (forall v <- r.criteria :: v.result != NotVerified)
    && (forall f <- r.securityFindings :: f.severity != Blocker && f.severity != High)
    && r.scopeViolations == []
  }

  /** What each report of the first check means. */
  ghost predicate PassFault(contract: TaskContract, r: VerificationResult, v: PassViolation) {
    match v
    case CriterionMissing(id) => id in MandatoryIds(contract) && id !in CriteriaById(r)
    case WaivedWithoutApproval(id) =>
      && id in MandatoryIds(contract) && id in CriteriaById(r)
      && CriteriaById(r)[id].result == Waived && CriteriaById(r)[id].waiverApprovalRef == ""
    case CriterionNotPassed(id) =>
      id in MandatoryIds(contract) && id in CriteriaById(r) && CriteriaById(r)[id].result !in {Passed, Waived}
    case CriterionNotVerified(id) => exists c <- r.criteria :: c.id == id && c.result == NotVerified
    case UnresolvedFinding(id) =>
      exists f <- r.securityFindings :: f.id == id && (f.severity == Blocker || f.severity == High)
    case ReportedScopeViolations => r.scopeViolations != []
    case _ => false
  }

  /** A mandatory criterion at fault, and how. */
  predicate MandatoryFault(byId: map<string, CriterionVerification>, id: string, v: PassViolation) {
    if id !in byId then v == CriterionMissing(id)
    else if byId[id].result == Waived then v == WaivedWithoutApproval(id) && byId[id].waiverApprovalRef == ""
    else v == CriterionNotPassed(id) && byId[id].result != Passed
  }

  method MandatoryViolations(mandatory: set<string>, byId: map<string, CriterionVerification>)
    returns (violations: seq<PassViolation>)
    ensures forall v :: v in violations <==> exists id <- mandatory :: MandatoryFault(byId, id, v)
  {
    violations := [];
    var todo := mandatory;
    while todo != {}
      invariant todo <= mandatory
      invariant forall v :: v in violations <==> exists id <- mandatory - todo :: MandatoryFault(byId, id, v)
    {
      var id :| id in todo;
      ghost var done, before := mandatory - todo, violations;
      if id !in byId {
        violations := violations + [CriterionMissing(id)];
      } else if byId[id].result == Waived {
        if byId[id].waiverApprovalRef == "" {
          violations := violations + [WaivedWithoutApproval(id)];
        }
      } else if byId[id].result != Passed {
        violations := violations + [CriterionNotPassed(id)];
      }
      todo := todo - {id};
      assert mandatory - todo == done + {id};
      assert forall v :: v in violations <==> v in before || MandatoryFault(byId, id, v);
    }
    assert mandatory - todo == mandatory;
  }

  method NotVerifiedViolations(criteria: seq<CriterionVerification>) returns (violations: seq<PassViolation>)
    ensures forall v :: v in violations <==>
                          v.CriterionNotVerified? && exists c <- criteria :: c.id == v.id && c.result == NotVerified
  {
    violations := [];
    for i := 0 to |criteria|
      invariant forall v :: v in violations <==>
                  v.CriterionNotVerified? && exists c <- criteria[..i] :: c.id == v.id && c.result == NotVerified
    {
      assert criteria[..i + 1] == criteria[..i] + [criteria[i]];
      if criteria[i].result == NotVerified {
        violations := violations + [CriterionNotVerified(criteria[i].id)];
      }
    }
    assert criteria[..|criteria|] == criteria;
  }

  method FindingViolations(findings: seq<Finding>) returns (violations: seq<PassViolation>)
    ensures forall v :: v in violations <==>
                          v.UnresolvedFinding? && exists f <- findings :: f.id == v.id && Unresolved(f)
  {
    violations := [];
    for i := 0 to |findings|
      invariant forall v :: v in violations <==>
                  v.UnresolvedFinding? && exists f <- findings[..i] :: f.id == v.id && Unresolved(f)
    {
      assert findings[..i + 1] == findings[..i] + [findings[i]];
      if Unresolved(findings[i]) {
        violations := violations + [UnresolvedFinding(findings[i].id)];
      }
    }
    assert findings[..|findings|] == findings;
  }

  /** `find_pass_invariant_violations`: silent exactly when the invariant of a PASS
      holds, and otherwise naming every fault and nothing else. */
  method FindPassInvariantViolations(contract: TaskContract, r: VerificationResult)
    returns (violations: seq<PassViolation>)
    ensures violations == [] <==> PassInvariant(contract, r)
    ensures forall v :: v in violations <==> PassFault(contract, r, v)
  {
    hide MandatoryIds, CriteriaById, MandatoryFault;
    var mandatory := MandatoryViolations(MandatoryIds(contract), CriteriaById(r));
    var notVerified := NotVerifiedViolations(r.criteria);
    var findings := FindingViolations(r.securityFindings);
    violations := mandatory + notVerified + findings;
    if r.scopeViolations != [] {
      violations := violations + [ReportedScopeViolations];
    }
    forall v ensures v in violations <==> PassFault(contract, r, v) {
      FaultIsFound(contract, r, v);
    }
    FaultlessExactly(contract, r);
    NoneIn(violations);
  }

  lemma NoneIn(violations: seq<PassViolation>)
    ensures violations == [] <==> forall v :: v !in violations
  {
    if violations != [] {
      assert violations[0] in violations;
    }
  }

  lemma FaultIsFound(contract: TaskContract, r: VerificationResult, v: PassViolation)
    ensures PassFault(contract, r, v) <==>
              || (exists id <- MandatoryIds(contract) :: MandatoryFault(CriteriaById(r), id, v))
              || (v.CriterionNotVerified? && exists c <- r.criteria :: c.id == v.id && c.result == NotVerified)
              || (v.UnresolvedFinding? && exists f <- r.securityFindings :: f.id == v.id && Unresolved(f))
              || (v == ReportedScopeViolations && r.scopeViolations != [])
  {
    hide MandatoryIds, CriteriaById;
    if v.CriterionMissing? || v.WaivedWithoutApproval? || v.CriterionNotPassed? {
      assert PassFault(contract, r, v) <==>
             v.id in MandatoryIds(contract) && MandatoryFault(CriteriaById(r), v.id, v);
    }
  }

  /** The invariant of a PASS holds exactly when there is no fault. */
  lemma FaultlessExactly(contract: TaskContract, r: VerificationResult)
    ensures PassInvariant(contract, r) <==> forall v :: !PassFault(contract, r, v)
  {
    hide MandatoryIds, CriteriaById;
    MandatoryMeans(contract, r);
    if forall v :: !PassFault(contract, r, v) {
      forall id <- MandatoryIds(contract) ensures MetIn(r, id) {
        assert !PassFault(contract, r, CriterionMissing(id)) && !PassFault(contract, r, CriterionNotPassed(id));
        assert !PassFault(contract, r, WaivedWithoutApproval(id));
      }
      forall c <- r.criteria ensures c.result != NotVerified {
        assert !PassFault(contract, r, CriterionNotVerified(c.id));
      }
      forall f <- r.securityFindings ensures f.severity != Blocker && f.severity != High {
        assert !PassFault(contract, r, UnresolvedFinding(f.id));
      }
      assert !PassFault(contract, r, ReportedScopeViolations);
    }
  }

  /* ---- Evidence -------------------------------------------------------------------------- */

  predicate Backed(v: CriterionVerification, evidence: seq<string>) {
    v.result == Passed ==> v.evidenceRefs != [] && forall ref <- v.evidenceRefs :: ref in evidence
  }

  predicate EvidenceExists(r: VerificationResult, f: Frozen) {
    forall v <- r.criteria :: Backed(v, f.evidenceIds)
  }

  method FindMissingEvidenceViolations(r: VerificationResult, f: Frozen) returns (violations: seq<PassViolation>)
    ensures violations == [] <==> EvidenceExists(r, f)
    ensures forall v :: v in violations <==>
                          v.NoSuchEvidence? && exists c <- r.criteria :: c.id == v.id && !Backed(c, f.evidenceIds)
  {
    violations := [];
    for i := 0 to |r.criteria|
      invariant violations == [] <==> forall j :: 0 <= j < i ==> Backed(r.criteria[j], f.evidenceIds)
      invariant forall v :: v in violations <==>
                  v.NoSuchEvidence? && exists c <- r.criteria[..i] :: c.id == v.id && !Backed(c, f.evidenceIds)
    {
      assert r.criteria[..i + 1] == r.criteria[..i] + [r.criteria[i]];
      var v := r.criteria[i];
      if v.result == Passed && (v.evidenceRefs == [] || exists ref <- v.evidenceRefs :: ref !in f.evidenceIds) {
        violations := violations + [NoSuchEvidence(v.id)];
      }
    }
    assert r.criteria[..|r.criteria|] == r.criteria;
  }

  /* ---- Host checks ------------------------------------------------------------------------- */

  function ExecutionsById(f: Frozen): map<string, Execution> {
    Dict(f.executions, (e: Execution) => e.commandId)
  }

  /** A command criterion whose command ran to its end with a declared exit code;
      without declared codes, with any. */
  predicate CommandSucceeded(c: AcceptanceCriterion, f: Frozen) {
    c.verification.verificationMethod == Command ==>
      var id, expected := c.verification.commandId, c.verification.expectedExitCodes;
      && id in ExecutionsById(f)
      && !ExecutionsById(f)[id].timedOut
      && !ExecutionsById(f)[id].outputCapExceeded
      && (expected != [] ==>
            && ExecutionsById(f)[id].exitCode.Some?
            && ExecutionsById(f)[id].exitCode.value in expected)
  }

  predicate ChecksSucceeded(contract: TaskContract, f: Frozen) {
    (forall c <- contract.criteria :: CommandSucceeded(c, f)) && f.SideEffects() == []
  }

  /** What each report about a command criterion means. */
  predicate ExecutionFault(c: AcceptanceCriterion, byId: map<string, Execution>, v: PassViolation) {
    var id, expected := c.verification.commandId, c.verification.expectedExitCodes;
    match v
    case NeverExecuted(name) => name == c.id && id !in byId
    case CommandTimedOut(name) => name == c.id && id in byId && byId[id].timedOut
    case OutputCapped(name) => name == c.id && id in byId && byId[id].outputCapExceeded
    case WrongExit(name) =>
      && name == c.id && id in byId && expected != []
      && (byId[id].exitCode.None? || byId[id].exitCode.value !in expected)
    case _ => false
  }

  predicate CheckFault(criteria: seq<AcceptanceCriterion>, byId: map<string, Execution>, v: PassViolation) {
    exists c <- criteria :: c.verification.verificationMethod == Command && ExecutionFault(c, byId, v)
  }

  method FindCheckExecutionViolations(contract: TaskContract, f: Frozen) returns (violations: seq<PassViolation>)
    ensures violations == [] <==> ChecksSucceeded(contract, f)
    ensures forall v :: v in violations <==>
                          || CheckFault(contract.criteria, ExecutionsById(f), v)
                          || (v == ChecksChangedTheWorktree && f.SideEffects() != [])
  {
    hide ExecutionsById, ExecutionFault;
    violations := [];
    var byId := ExecutionsById(f);
    for i := 0 to |contract.criteria|
      invariant violations == [] <==> forall j :: 0 <= j < i ==> CommandSucceeded(contract.criteria[j], f)
      invariant forall v :: v in violations <==> CheckFault(contract.criteria[..i], byId, v)
    {
      var c := contract.criteria[i];
      assert contract.criteria[..i + 1] == contract.criteria[..i] + [c];
      if c.verification.verificationMethod == Command {
        var found := ExecutionViolations(c, byId);
        violations := violations + found;
      }
    }
    assert contract.criteria[..|contract.criteria|] == contract.criteria;
    if f.SideEffects() != [] {
      violations := violations + [ChecksChangedTheWorktree];
    }
  }

  method ExecutionViolations(c: AcceptanceCriterion, byId: map<string, Execution>)
    returns (violations: seq<PassViolation>)
    ensures violations == [] <==>
              var id, expected := c.verification.commandId, c.verification.expectedExitCodes;
              && id in byId && !byId[id].timedOut && !byId[id].outputCapExceeded
              && (expected != [] ==> byId[id].exitCode.Some? && byId[id].exitCode.value in expected)
    ensures forall v :: v in violations <==> ExecutionFault(c, byId, v)
  {
    violations := [];
    if c.verification.commandId !in byId {
      return [NeverExecuted(c.id)];
    }
    var execution := byId[c.verification.commandId];
    if execution.timedOut {
      violations := violations + [CommandTimedOut(c.id)];
    }
    if execution.outputCapExceeded {
      violations := violations + [OutputCapped(c.id)];
    }
    var expected := c.verification.expectedExitCodes;
    if expected != [] && (execution.exitCode.None? || execution.exitCode.value !in expected) {
      violations := violations + [WrongExit(c.id)];
    }
  }

  /** A command criterion has succeeded when the last run of its command did: neither
      timed out nor cut off, with one of the exit codes it declares if it declares any. */
  lemma CommandSucceededMeans(c: AcceptanceCriterion, f: Frozen)
    requires c.verification.verificationMethod == Command
    ensures CommandSucceeded(c, f) <==>
              exists i :: LastRun(f.executions, c.verification.commandId, i) && RanWell(f.executions[i], c)
  {
    hide Dict;
    var key, id := (e: Execution) => e.commandId, c.verification.commandId;
    if id in ExecutionsById(f) {
      var i := DictHas(f.executions, key, id);
      assert LastRun(f.executions, id, i);
      assert CommandSucceeded(c, f) <==> RanWell(f.executions[i], c);
    }
    if i :| LastRun(f.executions, id, i) {
      DictKeepsLast(f.executions, key, i);
    }
  }

  predicate LastRun(executions: seq<Execution>, id: string, i: int) {
    && 0 <= i < |executions| && executions[i].commandId == id
    && forall j :: i < j < |executions| ==> executions[j].commandId != id
  }

  predicate RanWell(e: Execution, c: AcceptanceCriterion) {
    && !e.timedOut && !e.outputCapExceeded
    && (c.verification.expectedExitCodes == []
        || (e.exitCode.Some? && e.exitCode.value in c.verification.expectedExitCodes))
  }

  /** A criterion is met when the last answer for it is a pass, or a waiver that names
      its approval. */
  lemma MetMeans(r: VerificationResult, id: string)
    ensures MetIn(r, id) <==>
              exists i :: LastAnswer(r.criteria, id, i)
                          && (r.criteria[i].result == Passed
                              || (r.criteria[i].result == Waived && |r.criteria[i].waiverApprovalRef| > 0))
  {
    hide Dict;
    var key := (c: CriterionVerification) => c.id;
    if id in CriteriaById(r) {
      var i := DictHas(r.criteria, key, id);
      assert LastAnswer(r.criteria, id, i);
    }
    if i :| LastAnswer(r.criteria, id, i) {
      DictKeepsLast(r.criteria, key, i);
    }
  }

  predicate LastAnswer(criteria: seq<CriterionVerification>, id: string, i: int) {
    0 <= i < |criteria| && criteria[i].id == id && forall j :: i < j < |criteria| ==> criteria[j].id != id
  }

  /** A PASS is backed when each answer that passes cites evidence, and none that no
      host check gave rise to. */
  lemma BackedMeans(r: VerificationResult, f: Frozen)
    requires f.evidenceIds == EvidenceOf(f.executions)
    ensures EvidenceExists(r, f) <==>
              forall v <- r.criteria :: v.result == Passed ==>
                |v.evidenceRefs| > 0 && forall ref <- v.evidenceRefs :: exists e <- f.executions :: ref in e.evidenceIds
  {
    forall id ensures id in EvidenceOf(f.executions) <==> exists e <- f.executions :: id in e.evidenceIds {
      EvidenceIsAll(f.executions, id);
      if i :| 0 <= i < |f.executions| && id in f.executions[i].evidenceIds {
        assert f.executions[i] in f.executions;
      }
    }
  }

  /* ---- Accepting a verdict ------------------------------------------------------------------ */

  /** Everything the host insists on before it believes a PASS. */
  predicate PassBelieved(contract: TaskContract, r: VerificationResult, f: Frozen) {
    PassInvariant(contract, r) && EvidenceExists(r, f) && ChecksSucceeded(contract, f) && f.scopeViolations == []
  }

  /** The accept/downgrade rule of `run_verification`: a PASS is accepted exactly
      when all the checks agree, an unsafe one becomes a manual review, and any
      other verdict stands. */
  method AcceptVerdict(contract: TaskContract, r: VerificationResult, f: Frozen) returns (accepted: Verdict)
    ensures accepted == Pass <==> r.decision == Pass && PassBelieved(contract, r, f)
    ensures r.decision == Pass && accepted != Pass ==> accepted == ManualReview
    ensures r.decision != Pass ==> accepted == r.decision
  {
    var violations := FindPassInvariantViolations(contract, r);
    var missing := FindMissingEvidenceViolations(r, f);
    violations := violations + missing;
    for i := 0 to |f.scopeViolations|
      invariant violations == [] <==> PassInvariant(contract, r) && EvidenceExists(r, f) && i == 0
    {
      violations := violations + [OutOfScope];
    }
    var failedChecks := FindCheckExecutionViolations(contract, f);
    violations := violations + failedChecks;
    accepted := if r.decision == Pass && violations != [] then ManualReview else r.decision;
  }

  /** Of several answers for one criterion only the last is looked at: an earlier
      failure of a mandatory criterion does not stop a PASS. */
  lemma LaterAnswerWins(contract: TaskContract, r: VerificationResult, i: nat, id: string)
    requires i < |r.criteria| && r.criteria[i].id == id
    requires forall j :: i < j < |r.criteria| ==> r.criteria[j].id != id
    ensures id in CriteriaById(r) && CriteriaById(r)[id] == r.criteria[i]
    ensures PassInvariant(contract, r) && id in MandatoryIds(contract) ==> Met(r.criteria[i])
  {
    DictKeepsLast(r.criteria, (c: CriterionVerification) => c.id, i);
    assert PassInvariant(contract, r) && id in MandatoryIds(contract) ==> MetIn(r, id);
  }

  lemma MandatoryMeans(contract: TaskContract, r: VerificationResult)
    ensures (forall id <- MandatoryIds(contract) :: MetIn(r, id))
            <==> forall c <- contract.criteria :: c.mandatory ==> MetIn(r, c.id)
  {
  }

  function WithFailure(r: VerificationResult, i: nat): VerificationResult
    requires i < |r.criteria|
  {
    r.(criteria := r.criteria[i := r.criteria[i].(result := FailedCriterion)])
  }

  /** Turning an answer for a mandatory criterion into a failure goes unseen exactly
      when a later answer has the same id. */
  lemma FailureIsOverlookedExactly(contract: TaskContract, r: VerificationResult, i: nat)
    requires PassInvariant(contract, r) && i < |r.criteria| && r.criteria[i].id in MandatoryIds(contract)
    ensures PassInvariant(contract, WithFailure(r, i))
            <==> exists j :: i < j < |r.criteria| && r.criteria[j].id == r.criteria[i].id
  {
    hide MandatoryIds, Dict;
    var key := (c: CriterionVerification) => c.id;
    var failed := r.criteria[i].(result := FailedCriterion);
    DictOverlooks(r.criteria, key, i, failed);
    assert Replaced(r.criteria, key, i) <==> exists j :: i < j < |r.criteria| && r.criteria[j].id == r.criteria[i].id;
    if Replaced(r.criteria, key, i) {
      SameAnswersStand(contract, r, i);
    } else {
      MandatoryMeans(contract, WithFailure(r, i));
      assert !MetIn(WithFailure(r, i), failed.id);
    }
  }

  lemma SameAnswersStand(contract: TaskContract, r: VerificationResult, i: nat)
    requires PassInvariant(contract, r) && i < |r.criteria|
    requires CriteriaById(WithFailure(r, i)) == CriteriaById(r)
    ensures PassInvariant(contract, WithFailure(r, i))
  {
    hide MandatoryIds, CriteriaById;
    var r' := WithFailure(r, i);
    forall c <- contract.criteria | c.mandatory ensures MetIn(r', c.id) {
      assert MetIn(r, c.id);
    }
    forall v <- r'.criteria ensures v.result != NotVerified {
      var j :| 0 <= j < |r'.criteria| && r'.criteria[j] == v;
      assert j != i ==> v == r.criteria[j] && v in r.criteria;
    }
  }

  /** And so it happens: this PASS is believed although a mandatory criterion is
      also answered with a failure. */
  lemma EarlierFailureIsOverlooked() returns (contract: TaskContract, r: VerificationResult, f: Frozen)
    ensures r.decision == Pass && PassBelieved(contract, r, f)
    ensures exists c <- r.criteria :: c.result == FailedCriterion && c.id in MandatoryIds(contract)
  {
    var scope := ScopeRules({}, {}, true, None, None, {});
    var criterion := AcceptanceCriterion("c", true, VerificationSpec(Assertion, "", []));
    contract := TaskContract("k", "d", scope, [criterion],
                             Capabilities(NoAccess, {}, false, {}, false, {}, {}, {}), Budget(1, 1, 0));
    var failed := CriterionVerification("c", FailedCriterion, [], "");
    var passed := CriterionVerification("c", Passed, ["e"], "");
    r := VerificationResult("v", Names("", "", "", ""), Pass, [failed, passed], [], [], [], [], [], []);
    var none := ManifestDiff([], [], [], []);
    f := Frozen([], [], [], none, [], [], ["e"], none);
    assert failed in r.criteria && criterion in contract.criteria;
    DictKeepsLast(r.criteria, (c: CriterionVerification) => c.id, 1);
    assert CriteriaById(r)["c"] == passed && MandatoryIds(contract) == {"c"};
  }
}
