/** The policy gate and the rework loop of application/orchestrator.py: executing,
    freezing, host validation, verifying, and acting on the verdict, round after
    round, with the record every turn keeps. */
module Rounds {
  import opened Wrappers
  import opened Lifecycle
  import opened Journal
  import opened Database
  import opened Manifest
  import opened Scope
  import opened Policy
  import opened Contracts
  import opened Evidence
  import opened Verification
  import R = Rework
  import Actors
  import opened Trail

  /* ---- The policy gate ---------------------------------------------------------------------- */

  datatype Gate = Closed(run: Run) | Opened(run: Run, decision: Decision)

  /** A decision that lets the run on: no denial, and the approver's yes if it
      requires approval. */
  predicate GateOpened(d: Decision, i: nat, env: Environment) {
    && d.body.outcome != Deny
    && (d.body.outcome == RequireApproval ==> env.approval(i) == Some(true))
  }

  /** The `i`-th decision of a run: sealed, under the id drawn for it. */
  ghost predicate DecisionMade(d: Decision, i: nat, c: Capabilities, scope: ScopeRules, ceiling: Ceiling,
                               env: Environment) {
    Decided(d.body, c, scope, ceiling) && d.body.decisionId == env.decisionId(i) && d.digest == env.seal(d.body)
  }

  /** `trace` adds one decision on `subject`, about `c`, and at most two transitions. */
  ghost predicate Gated(before: Trace, trace: Trace, subject: Subject, c: Capabilities, scope: ScopeRules,
                        ceiling: Ceiling, env: Environment) {
    && trace == before.(committed := trace.committed, decisions := trace.decisions, failure := trace.failure)
    && LegalTrace(trace)
    && |before.committed| <= |trace.committed| <= |before.committed| + 2
    && |trace.decisions| == |before.decisions| + 1
    && trace.decisions[..|before.decisions|] == before.decisions
    && DecisionMade(trace.decisions[|before.decisions|], |before.decisions|, c, scope, ceiling, env)
    && trace.decisions[|before.decisions|].body.subject == subject
    && trace.decisions[|before.decisions|].body.evaluatedAt == env.moment(|before.committed|).now
  }

  predicate LastOutcome(t: Trace, outcome: PolicyOutcome) {
    t.decisions != [] && t.decisions[|t.decisions| - 1].body.outcome == outcome
  }

  /** Why a gate stays closed: a denial, or an approver who says no. */
  predicate GateRefused(t: Trace, env: Environment) {
    || (t.failure == Some(Failing(PolicyStage, PolicyHardDeny)) && LastOutcome(t, Deny))
    || (t.failure == Some(Failing(PolicyStage, PolicyDenied)) && LastOutcome(t, RequireApproval)
        && env.approval(|t.decisions| - 1) == Some(false))
  }

  /** `_gate_policy`: the gate opens only for a decision that is not a denial, and
      one that requires approval only if the approver said yes. */
  method GatePolicy(db: Database, run: Run, subject: Subject, c: Capabilities, scope: ScopeRules,
                    ceiling: Ceiling, env: Environment, before: Trace)
    returns (r: Result<Gate, Ending>, trace: Trace)
    requires Holds(db, before, run, env) && run.state == ContractValidating
    modifies db`committed, db`working, db`audit
    ensures db.Valid()
    ensures Gated(before, trace, subject, c, scope, ceiling, env)
    ensures r.Failure? ==> Interrupted(db, r.error, trace, env)
    ensures r.Success? ==> Holds(db, trace, r.value.run, env)
    ensures r.Success? && r.value.Closed? ==> r.value.run.state == Failed && GateRefused(trace, env)
    ensures r.Success? && r.value.Opened? ==>
              && r.value.decision == trace.decisions[|before.decisions|]
              && GateOpened(r.value.decision, |before.decisions|, env)
              && (r.value.run.state == ContractValidating || r.value.run.state == AwaitingApproval)
              && |trace.committed| <= |before.committed| + 1
  {
    hide Legal, Consistent, Footprint, AllNew, IdsFrom, FailureStored, Interrupted, Remembered, Decided, GateOpened,
      GateRefused;
    var now := env.moment(|before.committed|).now;
    var id := env.decisionId(|before.decisions|);
    var decision := EvaluatePolicy(id, subject, c, scope, ceiling, now, env.seal);
    trace := before.(decisions := before.decisions + [decision]);
    ghost var decided := trace;
    DecidedThenMoved(before, decided, trace, decision, subject, c, scope, ceiling, env);
    DecisionIsARow(before, decision);
    var _ :- Store(db, run, DecisionTable, id, env, before, trace);
    r, trace := Enforce(db, run, decision, now, env, trace);
    DecidedThenMoved(before, decided, trace, decision, subject, c, scope, ceiling, env);
  }

  lemma DecidedThenMoved(before: Trace, decided: Trace, trace: Trace, decision: Decision, subject: Subject,
                         c: Capabilities, scope: ScopeRules, ceiling: Ceiling, env: Environment)
    requires decided == before.(decisions := before.decisions + [decision])
    requires Moved(decided, trace, 2) || (trace == decided && LegalTrace(trace))
    requires DecisionMade(decision, |before.decisions|, c, scope, ceiling, env)
    requires decision.body.subject == subject && decision.body.evaluatedAt == env.moment(|before.committed|).now
    ensures Gated(before, trace, subject, c, scope, ceiling, env)
  {
    hide DecisionMade, LegalTrace;
  }

  /** Acting on a decision: refuse, ask, or let through. */
  method Enforce(db: Database, run: Run, decision: Decision, now: Time, env: Environment, before: Trace)
    returns (r: Result<Gate, Ending>, trace: Trace)
    requires Holds(db, before, run, env) && run.state == ContractValidating
    requires before.decisions != [] && before.decisions[|before.decisions| - 1] == decision
    modifies db`committed, db`working
    ensures db.Valid() && Moved(before, trace, 2)
    ensures r.Failure? ==> Interrupted(db, r.error, trace, env)
    ensures r.Success? ==> Holds(db, trace, r.value.run, env)
    ensures r.Success? && r.value.Closed? ==> r.value.run.state == Failed && GateRefused(trace, env)
    ensures r.Success? && r.value.Opened? ==>
              && r.value.decision == decision && GateOpened(decision, |before.decisions| - 1, env)
              && (r.value.run.state == ContractValidating || r.value.run.state == AwaitingApproval)
              && |trace.committed| <= |before.committed| + 1
  {
    hide Legal, Consistent, Footprint, AllNew, IdsFrom, FailureStored, Interrupted, Remembered;
    trace := before;
    if decision.body.outcome == Deny {
      var failed;
      failed, trace :- Fail(db, run, PolicyStage, PolicyHardDeny, env, trace);
      return Success(Closed(failed)), trace;
    }
    if decision.body.outcome != RequireApproval {
      return Success(Opened(run, decision)), trace;
    }
    r, trace := AskApproval(db, run, decision, env.approval(|before.decisions| - 1), now, env, trace);
  }

  /** The human part of the gate. */
  method AskApproval(db: Database, run: Run, decision: Decision, answer: Option<bool>, now: Time,
                     env: Environment, before: Trace)
    returns (r: Result<Gate, Ending>, trace: Trace)
    requires Holds(db, before, run, env) && run.state == ContractValidating && decision.body.outcome == RequireApproval
    requires before.decisions != [] && answer == env.approval(|before.decisions| - 1)
    modifies db`committed, db`working
    ensures db.Valid() && Moved(before, trace, 2)
    ensures r.Failure? ==> Interrupted(db, r.error, trace, env)
    ensures r.Success? ==> Holds(db, trace, r.value.run, env) && answer.Some?
    ensures r.Success? && r.value.Closed? ==>
              && r.value.run.state == Failed
              && !answer.value && trace.failure == Some(Failing(PolicyStage, PolicyDenied))
    ensures r.Success? && r.value.Opened? ==>
              && r.value.decision == decision && answer.value
              && r.value.run.state == AwaitingApproval && |trace.committed| == |before.committed| + 1
  {
    hide Legal, Consistent, Footprint, AllNew, IdsFrom, FailureStored, Interrupted, Remembered;
    var current;
    current, trace :- Advance(db, run, AwaitingApproval, Some(ApprovalPending), env, before);
    if answer.None? {
      GivesUp(db, trace, current, env);
      return Failure(Aborted), trace;
    }
    r, trace := Resolve(db, current, decision, answer.value, now, env, trace);
  }

  method Resolve(db: Database, run: Run, decision: Decision, answer: bool, now: Time, env: Environment, before: Trace)
    returns (r: Result<Gate, Ending>, trace: Trace)
    requires Holds(db, before, run, env) && run.state == AwaitingApproval && decision.body.outcome == RequireApproval
    modifies db`committed, db`working
    ensures db.Valid() && Moved(before, trace, 1)
    ensures r.Failure? ==> Interrupted(db, r.error, trace, env)
    ensures r.Success? ==> Holds(db, trace, r.value.run, env)
    ensures r.Success? && r.value.Closed? ==>
              r.value.run.state == Failed && !answer && trace.failure == Some(Failing(PolicyStage, PolicyDenied))
    ensures r.Success? && r.value.Opened? ==> answer && trace == before && r.value == Opened(run, decision)
  {
    hide Legal, Consistent, Footprint, AllNew, IdsFrom, FailureStored, Interrupted, Remembered;
    trace := before;
    var approval := CreateApproval(decision, answer, now, None);
    if ResolveDecision(decision, approval.value, now) != Success(Allow) {
      var failed;
      failed, trace :- Fail(db, run, PolicyStage, PolicyDenied, env, trace);
      return Success(Closed(failed)), trace;
    }
    return Success(Opened(run, decision)), trace;
  }

  /* ---- One attempt ------------------------------------------------------------------------------- */

  datatype Judgement =
    | Unjudged(run: Run)
    | Judged(run: Run, report: AttemptReport, additional: Option<Capabilities>)

  /** What the host knows of one attempt that reached a verdict. */
  ghost predicate ReportFits(a: AttemptReport, contract: TaskContract, baseline: seq<ManifestEntry>, scope: ScopeRules)
  {
    && ObservedAs(a.frozen, baseline, scope)
    && WellFormed(a.result)
    && (a.accepted == Pass <==> a.result.decision == Pass && PassBelieved(contract, a.result, a.frozen))
    && (a.result.decision != Pass ==> a.accepted == a.result.decision)
    && (a.result.decision == Pass && a.accepted != Pass ==> a.accepted == ManualReview)
  }

  /** `trace` adds up to `n` transitions and one call to each of worker and verifier. */
  ghost predicate Worked(before: Trace, trace: Trace, n: nat) {
    && trace == before.(committed := trace.committed, attempts := trace.attempts,
                        workerCalls := trace.workerCalls, verifierCalls := trace.verifierCalls,
                        used := trace.used, failure := trace.failure)
    && LegalTrace(trace)
    && |before.committed| <= |trace.committed| <= |before.committed| + n
    && before.workerCalls <= trace.workerCalls <= before.workerCalls + 1
    && before.verifierCalls <= trace.verifierCalls <= before.verifierCalls + 1
  }

  /** `trace` adds at most one attempt, and then with the verifier's answer to the
      call just made. */
  ghost predicate Reporting(before: Trace, trace: Trace, contract: TaskContract, baseline: seq<ManifestEntry>,
                            scope: ScopeRules, env: Environment) {
    trace.attempts != before.attempts ==>
      && |trace.attempts| == |before.attempts| + 1 && trace.attempts[..|before.attempts|] == before.attempts
      && trace.verifierCalls == before.verifierCalls + 1
      && var report, answer := trace.attempts[|before.attempts|], env.verifier(before.verifierCalls);
      && answer.VerifierAnswered? && report.result == answer.result
      && env.observed(|before.attempts|) == Some(SeenIn(report.frozen))
      && ReportFits(report, contract, baseline, scope)
  }

  datatype WorkerTurn =
    | NoTurn(run: Run)
    | Turn(run: Run, additional: Option<Capabilities>)

  /** No verdict could be had: the budget is used up, the worker took too long, or
      the verifier gave no usable answer. */
  predicate Broken(t: Trace, budget: Budget, env: Environment) {
    || (t.failure == Some(Failing(During(if t.workerCalls > t.verifierCalls then Verifying else Executing),
                                  ExecutionFailed))
        && OverBudget(t.start.budgetUsed, budget, env, t.plannerCalls, t.workerCalls, t.verifierCalls))
    || (t.failure == Some(Failing(During(Executing), TimedOut))
        && t.workerCalls > t.verifierCalls && env.worker(t.workerCalls - 1).WorkerTimedOut?)
    || (t.failure == Some(Failing(During(Verifying), ExecutionFailed)) && t.workerCalls == t.verifierCalls
        && t.verifierCalls > 0 && env.verifier(t.verifierCalls - 1).VerifierUnusable?)
  }

  function AdditionalOf(a: WorkerAnswer): Option<Capabilities> {
    if a.WorkerAnswered? then a.additional else None
  }

  /** What the host saw, as it was frozen. */
  function SeenIn(f: Frozen): Observed {
    Observed(f.result, f.postTest, f.executions)
  }

  /** The worker's turn, under its budget. */
  method Execute(db: Database, run: Run, grants: Grants, env: Environment, before: Trace)
    returns (r: Result<WorkerTurn, Ending>, trace: Trace)
    requires Holds(db, before, run, env) && run.state == PreparingWorkspace && Thrifty(before, grants.budget, env)
    requires before.workerCalls == before.verifierCalls
    modifies db`committed, db`working
    ensures db.Valid() && Worked(before, trace, 2) && Thrifty(trace, grants.budget, env)
    ensures trace.attempts == before.attempts && trace.verifierCalls == before.verifierCalls
    ensures r.Failure? ==> Interrupted(db, r.error, trace, env)
    ensures r.Success? ==> Holds(db, trace, r.value.run, env)
    ensures r.Success? && r.value.NoTurn? ==> r.value.run.state == Failed && Broken(trace, grants.budget, env)
    ensures r.Success? && r.value.Turn? ==>
              && r.value.run.state == Executing && |trace.committed| == |before.committed| + 1
              && var answer := env.worker(before.workerCalls);
              && answer.WorkerAnswered? && r.value.additional == answer.additional
              && trace.workerCalls == before.workerCalls + 1
  {
    hide Legal, Consistent, Footprint, AllNew, IdsFrom, FailureStored, Interrupted, Remembered, Accounted, CallsFit,
      OverBudget, R.WithinBudget;
    BudgetIsChecked(before.start.budgetUsed, before.used, grants.budget, env, before.plannerCalls, before.workerCalls,
                    before.verifierCalls);
    var current;
    current, trace :- Advance(db, run, Executing, None, env, before);
    if !R.WithinBudget(trace.used, grants.budget) {
      current, trace :- Fail(db, current, During(Executing), ExecutionFailed, env, trace);
      return Success(NoTurn(current)), trace;
    }
    r, trace := CallWorker(db, current, grants, env, trace);
  }

  method CallWorker(db: Database, run: Run, grants: Grants, env: Environment, before: Trace)
    returns (r: Result<WorkerTurn, Ending>, trace: Trace)
    requires Holds(db, before, run, env) && run.state == Executing && Thrifty(before, grants.budget, env)
    requires before.workerCalls == before.verifierCalls
    requires R.WithinBudget(before.used, grants.budget)
    modifies db`committed, db`working
    ensures db.Valid() && Worked(before, trace, 1) && Thrifty(trace, grants.budget, env)
    ensures trace.attempts == before.attempts && trace.verifierCalls == before.verifierCalls
    ensures r.Failure? ==> Interrupted(db, r.error, trace, env)
    ensures r.Success? ==> Holds(db, trace, r.value.run, env)
    ensures r.Success? && r.value.NoTurn? ==> r.value.run.state == Failed && Broken(trace, grants.budget, env)
    ensures r.Success? && r.value.Turn? ==>
              && r.value.run.state == Executing && |trace.committed| == |before.committed|
              && var answer := env.worker(before.workerCalls);
              && answer.WorkerAnswered? && r.value.additional == answer.additional
              && trace.workerCalls == before.workerCalls + 1
  {
    hide Legal, Consistent, Footprint, AllNew, IdsFrom, FailureStored, Interrupted, Remembered, Accounted, CallsFit,
      OverBudget, R.WithinBudget, R.AccumulateUsage;
    WorkerBooked(before.start.budgetUsed, before.used, grants.budget, env, before.plannerCalls, before.workerCalls);
    trace := before.(workerCalls := before.workerCalls + 1);
    assert At(trace, run);
    match env.worker(before.workerCalls)
    case WorkerRaised =>
      GivesUp(db, trace, run, env);
      return Failure(Aborted), trace;
    case WorkerTimedOut =>
      var failed;
      failed, trace :- Fail(db, run, During(Executing), TimedOut, env, trace);
      return Success(NoTurn(failed)), trace;
    case WorkerAnswered(usage, additional) =>
      trace := trace.(used := Booked(trace.used, usage));
      assert At(trace, run);
      return Success(Turn(run, additional)), trace;
  }

  datatype FrozenRun = FrozenRun(run: Run, frozen: Frozen)

  method EnterHostValidation(db: Database, run: Run, env: Environment, before: Trace)
    returns (r: Result<Run, Ending>, trace: Trace)
    requires Holds(db, before, run, env) && run.state == Executing
    modifies db`committed, db`working
    ensures db.Valid() && Moved(before, trace, 2)
    ensures r.Failure? ==> Interrupted(db, r.error, trace, env)
    ensures r.Success? ==>
              && Holds(db, trace, r.value, env) && r.value.state == HostValidating
              && |trace.committed| == |before.committed| + 2
  {
    hide Legal, Consistent, Footprint, AllNew, IdsFrom, FailureStored, Interrupted, Remembered;
    var current;
    current, trace :- Advance(db, run, FreezingResult, None, env, before);
    r, trace := Advance(db, current, HostValidating, None, env, trace);
  }

  /** Freeze, run the host checks, freeze again. */
  method Freeze(db: Database, run: Run, scope: ScopeRules, baseline: seq<ManifestEntry>, env: Environment,
                before: Trace)
    returns (r: Result<FrozenRun, Ending>, trace: Trace)
    requires Holds(db, before, run, env) && run.state == Executing
    modifies db`committed, db`working
    ensures db.Valid() && Moved(before, trace, 3)
    ensures r.Failure? ==> Interrupted(db, r.error, trace, env)
    ensures r.Success? ==>
              && Holds(db, trace, r.value.run, env) && r.value.run.state == Verifying
              && |trace.committed| == |before.committed| + 3
              && ObservedAs(r.value.frozen, baseline, scope)
              && env.observed(|before.attempts|) == Some(SeenIn(r.value.frozen))
  {
    hide Legal, Consistent, Footprint, AllNew, IdsFrom, FailureStored, Interrupted, Remembered, FreezeFits,
      ObservedAs;
    var current;
    current, trace :- EnterHostValidation(db, run, env, before);
    var observed := env.observed(|trace.attempts|);
    if observed.None? {
      GivesUp(db, trace, current, env);
      return Failure(Aborted), trace;
    }
    var frozen := FreezeAndValidate(baseline, observed.value, Some(scope));
    FreezeIsObserved(frozen, baseline, observed.value, scope);
    current, trace :- Advance(db, current, Verifying, None, env, trace);
    return Success(FrozenRun(current, frozen)), trace;
  }

  /** The verifier's turn on a frozen result. Its answer is stored under the id
      the verifier gave it. */
  method Verify(db: Database, run: Run, contract: TaskContract, grants: Grants,
                additional: Option<Capabilities>, ghost baseline: seq<ManifestEntry>, frozen: Frozen,
                env: Environment, before: Trace)
    returns (r: Result<Judgement, Ending>, trace: Trace)
    requires Holds(db, before, run, env) && run.state == Verifying
    requires |before.attempts| == |before.reworks| && before.workerCalls == before.verifierCalls + 1
    requires ObservedAs(frozen, baseline, grants.pathRules) && Thrifty(before, grants.budget, env)
    requires env.observed(|before.attempts|) == Some(SeenIn(frozen))
    modifies db`committed, db`working, db`audit
    ensures db.Valid() && Worked(before, trace, 1) && trace.workerCalls == before.workerCalls
    ensures Thrifty(trace, grants.budget, env)
    ensures Reporting(before, trace, contract, baseline, grants.pathRules, env)
    ensures trace.attempts != before.attempts ==> trace.committed == before.committed
    ensures r.Failure? ==> Interrupted(db, r.error, trace, env)
    ensures r.Success? ==> Holds(db, trace, r.value.run, env)
    ensures r.Success? && r.value.Unjudged? ==>
              r.value.run.state == Failed && trace.attempts == before.attempts && Broken(trace, grants.budget, env)
    ensures r.Success? && r.value.Judged? ==>
              && r.value.run.state == Verifying && trace.attempts == before.attempts + [r.value.report]
              && r.value.additional == additional
  {
    hide Legal, Consistent, Footprint, AllNew, IdsFrom, FailureStored, Interrupted, Remembered, FreezeFits,
      PassBelieved, Accounted, CallsFit, OverBudget, R.WithinBudget, R.AccumulateUsage;
    BudgetIsChecked(before.start.budgetUsed, before.used, grants.budget, env, before.plannerCalls, before.workerCalls,
                    before.verifierCalls);
    trace := before;
    var failed;
    if !R.WithinBudget(trace.used, grants.budget) {
      failed, trace :- Fail(db, run, During(Verifying), ExecutionFailed, env, trace);
      return Success(Unjudged(failed)), trace;
    }
    var answer := env.verifier(trace.verifierCalls);
    VerifierBooked(before.start.budgetUsed, before.used, grants.budget, env, before.plannerCalls, before.verifierCalls);
    trace := trace.(verifierCalls := trace.verifierCalls + 1);
    assert At(trace, run);
    if answer.VerifierRaised? || (answer.VerifierAnswered? && !WellFormed(answer.result)) {
      GivesUp(db, trace, run, env);
      return Failure(Aborted), trace;
    }
    if answer.VerifierUnusable? {
      failed, trace :- Fail(db, run, During(Verifying), ExecutionFailed, env, trace);
      return Success(Unjudged(failed)), trace;
    }
    r, trace := Judge(db, run, contract, additional, baseline, grants.pathRules, frozen, answer, env, trace);
  }

  /** An answer that counts: checked again, booked and stored. */
  method Judge(db: Database, run: Run, contract: TaskContract, additional: Option<Capabilities>,
               ghost baseline: seq<ManifestEntry>, ghost scope: ScopeRules, frozen: Frozen, answer: VerifierAnswer,
               env: Environment, before: Trace)
    returns (r: Result<Judgement, Ending>, trace: Trace)
    requires Holds(db, before, run, env) && run.state == Verifying && ObservedAs(frozen, baseline, scope)
    requires answer.VerifierAnswered? && WellFormed(answer.result)
    modifies db`audit
    ensures db.Valid() && |trace.attempts| == |before.attempts| + 1
    ensures var report := trace.attempts[|before.attempts|];
            && trace == before.(attempts := before.attempts + [report], used := Booked(before.used, answer.usage))
            && report.frozen == frozen && report.result == answer.result
            && ReportFits(report, contract, baseline, scope)
            && (r.Success? ==> Holds(db, trace, run, env) && r.value == Judged(run, report, additional))
    ensures r.Failure? ==> Interrupted(db, r.error, trace, env)
  {
    hide Legal, Consistent, Footprint, AllNew, IdsFrom, FailureStored, Interrupted, Remembered, FreezeFits,
      PassBelieved, R.AccumulateUsage;
    var accepted := AcceptVerdict(contract, answer.result, frozen);
    var report := AttemptReport(frozen, answer.result, accepted);
    trace := before.(attempts := before.attempts + [report], used := Booked(before.used, answer.usage));
    assert At(trace, run);
    ReportIsARow(before.(used := trace.used), report);
    var _ :- Store(db, run, VerificationTable, answer.result.verificationId, env, before, trace);
    return Success(Judged(run, report, additional)), trace;
  }

  /** Execute, freeze, validate on the host and verify: one round of the loop up to
      the verdict. */
  method Attempt(db: Database, run: Run, contract: TaskContract, grants: Grants,
                 baseline: seq<ManifestEntry>, env: Environment, before: Trace)
    returns (r: Result<Judgement, Ending>, trace: Trace)
    requires Holds(db, before, run, env)
    requires run.state == PreparingWorkspace && Thrifty(before, grants.budget, env)
    requires |before.attempts| == |before.reworks| && before.workerCalls == before.verifierCalls
    modifies db`committed, db`working, db`audit
    ensures db.Valid() && Worked(before, trace, 5) && Thrifty(trace, grants.budget, env)
    ensures Reporting(before, trace, contract, baseline, grants.pathRules, env)
    ensures trace.attempts != before.attempts ==>
              |trace.committed| == |before.committed| + 4 && trace.workerCalls == before.workerCalls + 1
    ensures r.Failure? ==> Interrupted(db, r.error, trace, env)
    ensures r.Success? ==> Holds(db, trace, r.value.run, env)
    ensures r.Success? && r.value.Unjudged? ==>
              r.value.run.state == Failed && trace.attempts == before.attempts && Broken(trace, grants.budget, env)
    ensures r.Success? && r.value.Judged? ==>
              && r.value.run.state == Verifying && trace.attempts == before.attempts + [r.value.report]
              && r.value.additional == AdditionalOf(env.worker(before.workerCalls))
  {
    hide Legal, Consistent, Footprint, AllNew, IdsFrom, FailureStored, Interrupted, Remembered, Accounted, CallsFit,
      OverBudget, ReportFits, ObservedAs;
    var turn;
    turn, trace :- Execute(db, run, grants, env, before);
    if turn.NoTurn? {
      return Success(Unjudged(turn.run)), trace;
    }
    var frozen;
    frozen, trace :- Freeze(db, turn.run, grants.pathRules, baseline, env, trace);
    r, trace := Verify(db, frozen.run, contract, grants, turn.additional, baseline, frozen.frozen, env, trace);
  }

  /* ---- After the verdict ---------------------------------------------------------------------------- */

  /** Where a verdict that asks for no rework leads. */
  function Concluded(accepted: Verdict, finalApproval: Option<bool>): State
    requires accepted != Contracts.Rework
  {
    match accepted
    case Reject => Failed
    case ManualReview => AwaitingManualReview
    case Pass => if finalApproval == Some(true) then ReadyForMerge else ReworkContracting
  }

  method Conclude(db: Database, run: Run, accepted: Verdict, env: Environment, before: Trace)
    returns (r: Result<Run, Ending>, trace: Trace)
    requires Holds(db, before, run, env) && run.state == Verifying && accepted != Contracts.Rework
    modifies db`committed, db`working
    ensures db.Valid() && Moved(before, trace, 2)
    ensures r.Failure? ==> Interrupted(db, r.error, trace, env)
    ensures r.Success? ==>
              && Holds(db, trace, r.value, env)
              && r.value.state == Concluded(accepted, env.finalApproval)
              && (accepted == Pass ==> env.finalApproval.Some?)
              && (accepted == Reject ==> trace.failure == Some(Failing(During(Verifying), TestFailed)))
  {
    hide Legal, Consistent, Footprint, AllNew, IdsFrom, FailureStored, Interrupted, Remembered;
    if accepted == Reject {
      r, trace := Fail(db, run, During(Verifying), TestFailed, env, before);
      return;
    }
    if accepted == ManualReview {
      r, trace := Advance(db, run, AwaitingManualReview, Some(ManualReviewPending), env, before);
      return;
    }
    r, trace := AskFinalApproval(db, run, env, before);
  }

  method AskFinalApproval(db: Database, run: Run, env: Environment, before: Trace)
    returns (r: Result<Run, Ending>, trace: Trace)
    requires Holds(db, before, run, env) && run.state == Verifying
    modifies db`committed, db`working
    ensures db.Valid() && Moved(before, trace, 2)
    ensures r.Failure? ==> Interrupted(db, r.error, trace, env)
    ensures r.Success? ==>
              && Holds(db, trace, r.value, env) && env.finalApproval.Some?
              && r.value.state == (if env.finalApproval.value then ReadyForMerge else ReworkContracting)
  {
    hide Legal, Consistent, Footprint, AllNew, IdsFrom, FailureStored, Interrupted, Remembered;
    var current;
    current, trace :- Advance(db, run, AwaitingFinalApproval, Some(FinalApprovalPending), env, before);
    if env.finalApproval.None? {
      GivesUp(db, trace, current, env);
      return Failure(Aborted), trace;
    }
    var target := if env.finalApproval.value then ReadyForMerge else ReworkContracting;
    r, trace := Advance(db, current, target, None, env, trace);
  }

  /** A rework contract as the pipeline makes them: bound to its verdict, within
      the rework budget, unwidened, and about other criteria than the last one. */
  ghost predicate ReworkFits(w: R.ReworkContract, contract: TaskContract, r: VerificationResult, n: nat,
                             previous: Option<set<string>>, additional: Option<Capabilities>, id: string,
                             seal: R.ReworkSealer) {
    && R.Binds(w, contract, r, n) && n <= contract.budget.maxReworkIterations
    && w.effectiveScope == contract.scope && w.additionalCapabilities == additional
    && w.reworkId == id && w.digest == seal(w.(digest := ""))
    && (previous.Some? ==> w.failedIds != previous.value)
  }

  ghost predicate Contracting(before: Trace, trace: Trace, contract: TaskContract, r: VerificationResult, n: nat,
                              previous: Option<set<string>>, additional: Option<Capabilities>, env: Environment) {
    && trace == before.(committed := trace.committed, reworks := trace.reworks, failure := trace.failure)
    && LegalTrace(trace)
    && |before.committed| <= |trace.committed| <= |before.committed| + 2
    && (trace.reworks != before.reworks ==>
          && |trace.reworks| == |before.reworks| + 1 && trace.reworks[..|before.reworks|] == before.reworks
          && ReworkFits(trace.reworks[|before.reworks|], contract, r, n, previous, additional,
                        env.reworkId(|before.reworks|), env.sealRework))
  }

  datatype Contracted = Exhausted(run: Run) | Contracted(run: Run, rework: R.ReworkContract)

  /** The guards on a REWORK verdict, and the contract for the next attempt. */
  method ContractRework(db: Database, run: Run, contract: TaskContract, result: VerificationResult, n: nat,
                        previous: Option<set<string>>, additional: Option<Capabilities>,
                        env: Environment, before: Trace)
    returns (r: Result<Contracted, Ending>, trace: Trace)
    requires Holds(db, before, run, env) && run.state == Verifying
    requires before.contract == Some(contract) && n == |before.attempts| == |before.reworks| + 1
    requires before.attempts[n - 1].result == result && before.attempts[n - 1].accepted == Contracts.Rework
    modifies db`committed, db`working, db`audit
    ensures db.Valid() && Contracting(before, trace, contract, result, n, previous, additional, env)
    ensures r.Failure? ==> Interrupted(db, r.error, trace, env)
    ensures r.Success? ==> Holds(db, trace, r.value.run, env)
    ensures r.Success? && r.value.Exhausted? ==>
              && r.value.run.state == Failed
              && trace.failure == Some(Failing(During(Verifying), ReworkExhausted)) && trace.reworks == before.reworks
              && (n > contract.budget.maxReworkIterations
                  || (R.FailedIds(result) != {} && previous == Some(R.FailedIds(result))))
    ensures r.Success? && r.value.Contracted? ==>
              && r.value.run.state == ContractValidating
              && trace.reworks == before.reworks + [r.value.rework]
  {
    hide Legal, Consistent, Footprint, AllNew, IdsFrom, FailureStored, Interrupted, Remembered, R.FailedIds;
    trace := before;
    var current;
    var failed := R.FailedIds(result);
    if R.NoProgress(previous, failed) || !R.ReworkAllowed(n, contract.budget) {
      current, trace :- Fail(db, run, During(Verifying), ReworkExhausted, env, trace);
      return Success(Exhausted(current)), trace;
    }
    var id := env.reworkId(|before.reworks|);
    var built := R.BuildReworkContract(contract, result, n, id, None, additional, env.sealRework);
    if built.Failure? {
      GivesUp(db, trace, run, env);
      return Failure(Aborted), trace;
    }
    trace := trace.(reworks := trace.reworks + [built.value]);
    assert At(trace, run);
    ReworkIsARow(before, built.value);
    var _ :- Store(db, run, ReworkTable, id, env, before, trace);
    r, trace := Recontract(db, run, built.value, env, trace);
  }

  method Recontract(db: Database, run: Run, rework: R.ReworkContract, env: Environment, before: Trace)
    returns (r: Result<Contracted, Ending>, trace: Trace)
    requires Holds(db, before, run, env) && run.state == Verifying
    modifies db`committed, db`working
    ensures db.Valid() && Moved(before, trace, 2)
    ensures r.Failure? ==> Interrupted(db, r.error, trace, env)
    ensures r.Success? ==>
              && Holds(db, trace, r.value.run, env) && r.value == Contracted(r.value.run, rework)
              && r.value.run.state == ContractValidating
  {
    hide Legal, Consistent, Footprint, AllNew, IdsFrom, FailureStored, Interrupted, Remembered;
    var current;
    current, trace :- Advance(db, run, ReworkContracting, None, env, before);
    current, trace :- Advance(db, current, ContractValidating, None, env, trace);
    return Success(Contracted(current, rework)), trace;
  }

  datatype Regated = Shut(run: Run) | Regated(run: Run, grants: Grants, capabilities: Capabilities)

  /** `trace` adds at most two transitions, and a decision for each extra request. */
  ghost predicate Regating(before: Trace, trace: Trace, active: Capabilities, scope: ScopeRules, ceiling: Ceiling,
                           rework: R.ReworkContract, env: Environment) {
    && trace == before.(committed := trace.committed, decisions := trace.decisions, extras := trace.extras,
                        failure := trace.failure)
    && LegalTrace(trace)
    && |before.committed| <= |trace.committed| <= |before.committed| + 2
    && match rework.additionalCapabilities
       case None => trace.decisions == before.decisions && trace.extras == before.extras
       case Some(extra) =>
         && trace.extras == before.extras + [extra]
         && |trace.decisions| == |before.decisions| + 1
         && trace.decisions[..|before.decisions|] == before.decisions
         && DecisionMade(trace.decisions[|before.decisions|], |before.decisions|, MergeCapabilities(active, extra),
                         scope, ceiling, env)
         && trace.decisions[|before.decisions|].body.subject == ReworkSubject(rework.reworkId, rework.digest)
  }

  /** Extra capabilities go through the gate again, merged with those in force. */
  method Regate(db: Database, run: Run, rework: R.ReworkContract, scope: ScopeRules, active: Capabilities,
                grants: Grants, ceiling: Ceiling, env: Environment, before: Trace)
    returns (r: Result<Regated, Ending>, trace: Trace)
    requires Holds(db, before, run, env) && run.state == ContractValidating && rework.effectiveScope == scope
    modifies db`committed, db`working, db`audit
    ensures db.Valid() && Regating(before, trace, active, scope, ceiling, rework, env)
    ensures r.Failure? ==> Interrupted(db, r.error, trace, env)
    ensures r.Success? ==> Holds(db, trace, r.value.run, env)
    ensures r.Success? && r.value.Shut? ==>
              r.value.run.state == Failed && GateRefused(trace, env)
    ensures r.Success? && r.value.Regated? ==>
              && r.value.run.state == PreparingWorkspace
              && match rework.additionalCapabilities
                 case None => r.value == Regated(r.value.run, grants, active)
                 case Some(extra) =>
                   && r.value.capabilities == MergeCapabilities(active, extra)
                   && r.value.grants == trace.decisions[|before.decisions|].body.grants
                   && GateOpened(trace.decisions[|before.decisions|], |before.decisions|, env)
  {
    hide Legal, Consistent, Footprint, AllNew, IdsFrom, FailureStored, Interrupted, Remembered;
    if rework.additionalCapabilities.None? {
      var current;
      current, trace :- Advance(db, run, PreparingWorkspace, None, env, before);
      return Success(Regated(current, grants, active)), trace;
    }
    var extra := rework.additionalCapabilities.value;
    trace := before.(extras := before.extras + [extra]);
    assert At(trace, run);
    r, trace := GateAgain(db, run, rework, scope, MergeCapabilities(active, extra), ceiling, env, trace);
  }

  method GateAgain(db: Database, run: Run, rework: R.ReworkContract, scope: ScopeRules, merged: Capabilities,
                   ceiling: Ceiling, env: Environment, before: Trace)
    returns (r: Result<Regated, Ending>, trace: Trace)
    requires Holds(db, before, run, env) && run.state == ContractValidating
    modifies db`committed, db`working, db`audit
    ensures db.Valid()
    ensures Gated(before, trace, ReworkSubject(rework.reworkId, rework.digest), merged, scope, ceiling, env)
    ensures r.Failure? ==> Interrupted(db, r.error, trace, env)
    ensures r.Success? ==> Holds(db, trace, r.value.run, env)
    ensures r.Success? && r.value.Shut? ==>
              r.value.run.state == Failed && GateRefused(trace, env)
    ensures r.Success? && r.value.Regated? ==>
              && r.value == Regated(r.value.run, trace.decisions[|before.decisions|].body.grants, merged)
              && r.value.run.state == PreparingWorkspace
              && GateOpened(trace.decisions[|before.decisions|], |before.decisions|, env)
  {
    hide Legal, Consistent, Footprint, AllNew, IdsFrom, FailureStored, Interrupted, Remembered, DecisionMade,
      GateRefused, GateOpened;
    var gate;
    var subject := ReworkSubject(rework.reworkId, rework.digest);
    gate, trace :- GatePolicy(db, run, subject, merged, scope, ceiling, env, before);
    if gate.Closed? {
      return Success(Shut(gate.run)), trace;
    }
    var current;
    current, trace :- Advance(db, gate.run, PreparingWorkspace, None, env, trace);
    return Success(Regated(current, gate.decision.body.grants, merged)), trace;
  }

  /* ---- The loop -------------------------------------------------------------------------------------- */

  /** The local variables at the head of the loop. */
  datatype Local = Local(
    run: Run, grants: Grants, capabilities: Capabilities, baseline: seq<ManifestEntry>,
    attemptNumber: nat, previousFailed: Option<set<string>>)

  /** What is fixed when the loop starts. */
  datatype Setting = Setting(contract: TaskContract, ceiling: Ceiling, env: Environment)

  /** The first manifest of the worktree. */
  function FirstBaseline(env: Environment): seq<ManifestEntry> {
    if env.worktree.WorktreeReady? then env.worktree.baseline else []
  }

  function GrantedScope(s: Setting): ScopeRules {
    IntersectScope(s.contract.scope, s.ceiling.scope)
  }

  /** Attempt `i` starts from the tree the host checks of the attempt before it left. */
  function BaselineOf(attempts: seq<AttemptReport>, first: seq<ManifestEntry>, i: nat): seq<ManifestEntry>
    requires i <= |attempts|
  {
    if i == 0 then first else attempts[i - 1].frozen.postTest
  }

  /** Attempt `i` is what the host saw the `i`-th time, judged by the verifier's
      `i`-th answer. */
  ghost predicate AttemptFits(attempts: seq<AttemptReport>, i: nat, s: Setting)
    requires i < |attempts|
  {
    && s.env.verifier(i).VerifierAnswered? && attempts[i].result == s.env.verifier(i).result
    && s.env.observed(i) == Some(SeenIn(attempts[i].frozen))
    && ReportFits(attempts[i], s.contract, BaselineOf(attempts, FirstBaseline(s.env), i), GrantedScope(s))
  }

  ghost predicate AttemptsFit(attempts: seq<AttemptReport>, s: Setting) {
    forall i :: 0 <= i < |attempts| ==> AttemptFits(attempts, i, s)
  }

  function PreviousFailed(reworks: seq<R.ReworkContract>, i: nat): Option<set<string>>
    requires i <= |reworks|
  {
    if i == 0 then None else Some(reworks[i - 1].failedIds)
  }

  /** Rework contracts are numbered 1, 2, 3, ..., each is bound to the verdict of
      its attempt and asks for what its worker asked for, and no two in a row are
      about the same criteria. */
  ghost predicate ReworkBound(attempts: seq<AttemptReport>, reworks: seq<R.ReworkContract>, i: nat,
                              s: Setting)
    requires i < |reworks| && i < |attempts|
  {
    && attempts[i].accepted == Contracts.Rework
    && ReworkFits(reworks[i], s.contract, attempts[i].result, i + 1, PreviousFailed(reworks, i),
                  AdditionalOf(s.env.worker(i)), s.env.reworkId(i), s.env.sealRework)
  }

  ghost predicate ReworksFit(attempts: seq<AttemptReport>, reworks: seq<R.ReworkContract>, s: Setting) {
    && |reworks| <= |attempts| && |reworks| <= s.contract.budget.maxReworkIterations
    && (forall i :: 0 <= i < |reworks| ==> ReworkBound(attempts, reworks, i, s))
  }

  ghost predicate DecidedAt(decisions: seq<Decision>, extras: seq<Capabilities>, i: nat, s: Setting)
    requires i < |decisions| && i <= |extras|
  {
    DecisionMade(decisions[i], i, Accumulated(s.contract.capabilities, extras, i), s.contract.scope, s.ceiling, s.env)
  }

  ghost predicate OpenedUpTo(decisions: seq<Decision>, n: nat, env: Environment)
    requires n <= |decisions|
  {
    forall i :: 0 <= i < n ==> GateOpened(decisions[i], i, env)
  }

  /** Every decision is about everything asked for so far, and all but the last
      opened the gate. */
  ghost predicate DecisionsFit(decisions: seq<Decision>, extras: seq<Capabilities>, s: Setting) {
    && |decisions| == |extras| + 1
    && (forall i :: 0 <= i < |decisions| ==> DecidedAt(decisions, extras, i, s))
    && OpenedUpTo(decisions, |extras|, s.env)
  }

  /** The further requests of the rework contracts, in order. */
  function ExtrasOf(reworks: seq<R.ReworkContract>): seq<Capabilities> {
    if reworks == [] then []
    else
      var n := |reworks| - 1;
      var asked := reworks[n].additionalCapabilities;
      ExtrasOf(reworks[..n]) + if asked.Some? then [asked.value] else []
  }

  /** What the decisions have to be on: the contract, and each rework contract that
      asks for more, in order. */
  function Subjects(contract: TaskContract, reworks: seq<R.ReworkContract>): seq<Subject> {
    if reworks == [] then [ContractSubject(contract.contractId, contract.digest)]
    else
      var n := |reworks| - 1;
      Subjects(contract, reworks[..n])
      + if reworks[n].additionalCapabilities.Some? then [ReworkSubject(reworks[n].reworkId, reworks[n].digest)] else []
  }

  function SubjectsOf(decisions: seq<Decision>): seq<Subject> {
    seq(|decisions|, i requires 0 <= i < |decisions| => decisions[i].body.subject)
  }

  lemma SubjectsNext(decisions: seq<Decision>, longer: seq<Decision>)
    requires |longer| == |decisions| + 1 && longer[..|decisions|] == decisions
    ensures SubjectsOf(longer) == SubjectsOf(decisions) + [longer[|decisions|].body.subject]
  {
    SamePrefix(decisions, longer);
  }

  /** All that these rework contracts ask for has been decided. */
  ghost predicate Asked(t: Trace, reworks: seq<R.ReworkContract>, s: Setting) {
    t.extras == ExtrasOf(reworks) && SubjectsOf(t.decisions) == Subjects(s.contract, reworks)
  }

  /** What holds of every trace with a decision, however the pipeline ended. A
      round is begun only with every gate before it open. */
  ghost predicate Recorded(t: Trace, s: Setting) {
    && LegalTrace(t) && t.contract == Some(s.contract)
    && AttemptsFit(t.attempts, s)
    && ReworksFit(t.attempts, t.reworks, s)
    && DecisionsFit(t.decisions, t.extras, s)
    && t.extras <= ExtrasOf(t.reworks) && SubjectsOf(t.decisions) <= Subjects(s.contract, t.reworks)
    && (|t.attempts| > |t.reworks| ==> OpenedUpTo(t.decisions, |t.decisions|, s.env))
    && Thrifty(t, s.ceiling.budget, s.env)
    && |t.attempts| <= |t.reworks| + 1
    && t.plannerCalls == 1 && t.workerCalls <= |t.reworks| + 1 && t.verifierCalls <= |t.reworks| + 1
    && |t.committed| <= 8 * |t.reworks| + 10
  }

  /** The head of the loop without what concerns the local variables. */
  ghost predicate AtHead(t: Trace, s: Setting) {
    && Recorded(t, s)
    && |t.attempts| == |t.reworks| && Asked(t, t.reworks, s)
    && t.workerCalls == t.verifierCalls == |t.attempts|
    && |t.committed| <= 8 * |t.reworks| + 4
  }

  /** The local variables agree with the record. */
  ghost predicate LocalFits(t: Trace, l: Local, s: Setting) {
    && l.attemptNumber == |t.reworks| + 1
    && l.previousFailed == PreviousFailed(t.reworks, |t.reworks|)
    && InForce(t, l, s)
  }

  /** The capabilities and grants in force are those of the last decision. */
  ghost predicate InForce(t: Trace, l: Local, s: Setting) {
    && |t.decisions| == |t.extras| + 1
    && l.capabilities == Accumulated(s.contract.capabilities, t.extras, |t.extras|)
    && l.grants == t.decisions[|t.extras|].body.grants
    && GateOpened(t.decisions[|t.extras|], |t.extras|, s.env)
  }

  ghost predicate LoopHead(db: Database, t: Trace, l: Local, s: Setting)
    reads db
  {
    && Holds(db, t, l.run, s.env) && l.run.state == PreparingWorkspace
    && AtHead(t, s) && LocalFits(t, l, s)
    && l.baseline == BaselineOf(t.attempts, FirstBaseline(s.env), |t.attempts|)
  }

  lemma AttemptAppends(attempts: seq<AttemptReport>, a: AttemptReport, s: Setting)
    requires AttemptsFit(attempts, s)
    requires s.env.verifier(|attempts|).VerifierAnswered? && a.result == s.env.verifier(|attempts|).result
    requires s.env.observed(|attempts|) == Some(SeenIn(a.frozen))
    requires ReportFits(a, s.contract, BaselineOf(attempts, FirstBaseline(s.env), |attempts|), GrantedScope(s))
    ensures AttemptsFit(attempts + [a], s)
  {
    var longer := attempts + [a];
    forall i | 0 <= i < |longer| ensures AttemptFits(longer, i, s) {
      assert BaselineOf(longer, FirstBaseline(s.env), i) == BaselineOf(attempts, FirstBaseline(s.env), i);
      assert i < |attempts| ==> AttemptFits(attempts, i, s);
    }
  }

  lemma ReworksKept(attempts: seq<AttemptReport>, a: AttemptReport, reworks: seq<R.ReworkContract>, s: Setting)
    requires ReworksFit(attempts, reworks, s)
    ensures ReworksFit(attempts + [a], reworks, s)
  {
    forall i | 0 <= i < |reworks| ensures ReworkBound(attempts + [a], reworks, i, s) {
      assert ReworkBound(attempts, reworks, i, s);
    }
  }

  lemma ReworkAppends(attempts: seq<AttemptReport>, reworks: seq<R.ReworkContract>, w: R.ReworkContract, s: Setting)
    requires ReworksFit(attempts, reworks, s) && |attempts| == |reworks| + 1
    requires attempts[|reworks|].accepted == Contracts.Rework
    requires ReworkFits(w, s.contract, attempts[|reworks|].result, |reworks| + 1, PreviousFailed(reworks, |reworks|),
                        AdditionalOf(s.env.worker(|reworks|)), s.env.reworkId(|reworks|), s.env.sealRework)
    ensures ReworksFit(attempts, reworks + [w], s)
  {
    var longer := reworks + [w];
    forall i | 0 <= i < |longer| ensures ReworkBound(attempts, longer, i, s) {
      assert PreviousFailed(longer, i) == PreviousFailed(reworks, i);
      assert i < |reworks| ==> ReworkBound(attempts, reworks, i, s);
    }
  }

  lemma {:induction false} AccumulatedPrefix(base: Capabilities, extras: seq<Capabilities>, x: Capabilities, i: nat)
    requires i <= |extras|
    ensures Accumulated(base, extras + [x], i) == Accumulated(base, extras, i)
  {
    if i > 0 {
      AccumulatedPrefix(base, extras, x, i - 1);
    }
  }

  lemma DecisionKept(decisions: seq<Decision>, extras: seq<Capabilities>, longer: seq<Decision>, x: Capabilities,
                     i: nat, s: Setting)
    requires i < |decisions| && i <= |extras| && DecidedAt(decisions, extras, i, s)
    requires i < |longer| && longer[i] == decisions[i]
    ensures DecidedAt(longer, extras + [x], i, s)
  {
    AccumulatedPrefix(s.contract.capabilities, extras, x, i);
  }

  /** `longer` is `decisions` and one more, about `x` on top of all before. */
  ghost predicate OneMore(decisions: seq<Decision>, longer: seq<Decision>, extras: seq<Capabilities>, x: Capabilities,
                          s: Setting)
  {
    && |longer| == |decisions| + 1 && longer[..|decisions|] == decisions
    && DecisionMade(longer[|decisions|], |decisions|,
                    MergeCapabilities(Accumulated(s.contract.capabilities, extras, |extras|), x),
                    s.contract.scope, s.ceiling, s.env)
  }

  lemma AccumulatedNext(base: Capabilities, extras: seq<Capabilities>, x: Capabilities)
    ensures Accumulated(base, extras + [x], |extras| + 1) == MergeCapabilities(Accumulated(base, extras, |extras|), x)
  {
    AccumulatedPrefix(base, extras, x, |extras|);
  }

  lemma DecisionAdded(decisions: seq<Decision>, extras: seq<Capabilities>, longer: seq<Decision>, x: Capabilities,
                      s: Setting)
    requires |decisions| == |extras| + 1 && OneMore(decisions, longer, extras, x, s)
    ensures DecidedAt(longer, extras + [x], |decisions|, s)
  {
    AccumulatedNext(s.contract.capabilities, extras, x);
  }

  lemma DecisionAppends(decisions: seq<Decision>, extras: seq<Capabilities>, longer: seq<Decision>, x: Capabilities,
                        s: Setting)
    requires DecisionsFit(decisions, extras, s) && GateOpened(decisions[|extras|], |extras|, s.env)
    requires OneMore(decisions, longer, extras, x, s)
    ensures DecisionsFit(longer, extras + [x], s)
  {
    var n := |decisions|;
    DecisionAdded(decisions, extras, longer, x, s);
    SamePrefix(decisions, longer);
    forall i | 0 <= i < |longer| ensures DecidedAt(longer, extras + [x], i, s) {
      if i < n {
        assert DecidedAt(decisions, extras, i, s);
        DecisionKept(decisions, extras, longer, x, i, s);
      }
    }
    StillOpened(decisions, longer, s.env);
  }

  lemma SamePrefix(decisions: seq<Decision>, longer: seq<Decision>)
    requires |longer| == |decisions| + 1 && longer[..|decisions|] == decisions
    ensures forall i :: 0 <= i < |decisions| ==> longer[i] == decisions[i]
  {
    forall i | 0 <= i < |decisions| ensures longer[i] == decisions[i] {
      assert longer[i] == longer[..|decisions|][i];
    }
  }

  lemma StillOpened(decisions: seq<Decision>, longer: seq<Decision>, env: Environment)
    requires |longer| == |decisions| + 1 && longer[..|decisions|] == decisions && decisions != []
    requires OpenedUpTo(decisions, |decisions| - 1, env) && GateOpened(decisions[|decisions| - 1], |decisions| - 1, env)
    ensures OpenedUpTo(longer, |decisions|, env)
  {
    SamePrefix(decisions, longer);
  }

  lemma GrantScope(t: Trace, s: Setting)
    requires DecisionsFit(t.decisions, t.extras, s)
    ensures t.decisions[|t.extras|].body.grants.pathRules == GrantedScope(s)
    ensures t.decisions[|t.extras|].body.grants.budget == s.ceiling.budget
  {
    assert DecidedAt(t.decisions, t.extras, |t.extras|, s);
  }

  datatype RoundEnd = Finished(run: Run) | Again(next: Local)

  /** Where the pipeline may end with a Run, as the last verdict and the final
      approver say; in failure only for a stated cause. */
  function FinalStates(t: Trace, s: Setting): set<State> {
    (if FailureExplained(t, s) then {Failed} else {})
    + (if LastAccepted(t, Pass) && s.env.finalApproval == Some(true) then {ReadyForMerge} else {})
    + (if LastAccepted(t, Pass) && s.env.finalApproval == Some(false) then {ReworkContracting} else {})
    + (if LastAccepted(t, ManualReview) then {AwaitingManualReview} else {})
  }

  /** The code of the failure record names its cause. */
  predicate FailureExplained(t: Trace, s: Setting) {
    || GateRefused(t, s.env)
    || (t.failure == Some(Failing(During(Verifying), TestFailed)) && LastAccepted(t, Reject))
    || (t.failure == Some(Failing(During(Verifying), ReworkExhausted)) && LastAccepted(t, Contracts.Rework)
        && OutOfRework(t, s))
    || (Unprepared(t, s.env) && t.attempts == [])
    || (Broken(t, s.ceiling.budget, s.env) && |t.attempts| == |t.reworks|)
  }

  predicate Unprepared(t: Trace, env: Environment) {
    t.failure == Some(Failing(During(PreparingWorkspace), ExecutionFailed)) && env.worktree.WorktreeFailed?
  }

  /** Either no rework is left, or the last attempt failed the same criteria as
      the one before it. */
  predicate OutOfRework(t: Trace, s: Setting) {
    var n := |t.attempts|;
    && n > 0 && |t.reworks| == n - 1
    && (n > s.contract.budget.maxReworkIterations
        || (n > 1 && t.reworks[n - 2].failedIds == R.FailedIds(t.attempts[n - 1].result) != {}))
  }

  predicate LastAccepted(t: Trace, verdict: Verdict) {
    t.attempts != [] && t.attempts[|t.attempts| - 1].accepted == verdict
  }

  /** A trace at most one attempt further than the head of the loop. */
  lemma AttemptRecorded(before: Trace, trace: Trace, l: Local, s: Setting)
    requires AtHead(before, s) && LocalFits(before, l, s)
    requires Worked(before, trace, 5) && Thrifty(trace, s.ceiling.budget, s.env)
    requires Reporting(before, trace, s.contract, BaselineOf(before.attempts, FirstBaseline(s.env), |before.attempts|),
                       GrantedScope(s), s.env)
    requires trace.attempts != before.attempts ==>
               |trace.committed| == |before.committed| + 4 && trace.workerCalls == before.workerCalls + 1
    ensures Recorded(trace, s)
    ensures trace.attempts != before.attempts ==> JudgedTrace(trace, trace.attempts[|before.attempts|], s)
  {
    hide ReportFits, LegalTrace, Accounted, CallsFit, Accumulated, ReworkBound;
    if trace.attempts != before.attempts {
      var report := trace.attempts[|before.attempts|];
      assert trace.attempts == before.attempts + [report];
      AttemptAppends(before.attempts, report, s);
      ReworksKept(before.attempts, report, before.reworks, s);
    }
  }

  /** A trace whose last attempt has just been judged. */
  ghost predicate JudgedTrace(t: Trace, report: AttemptReport, s: Setting) {
    && Recorded(t, s)
    && |t.attempts| == |t.reworks| + 1 && t.attempts[|t.reworks|] == report && Asked(t, t.reworks, s)
    && t.workerCalls == t.verifierCalls == |t.attempts|
    && |t.committed| <= 8 * |t.reworks| + 8
  }

  lemma ConcludedAs(trace: Trace, report: AttemptReport, run: Run, s: Setting)
    requires trace.attempts != [] && trace.attempts[|trace.attempts| - 1] == report
    requires report.accepted != Contracts.Rework && run.state == Concluded(report.accepted, s.env.finalApproval)
    requires report.accepted == Pass ==> s.env.finalApproval.Some?
    requires report.accepted == Reject ==> trace.failure == Some(Failing(During(Verifying), TestFailed))
    ensures run.state in FinalStates(trace, s)
  {
    if report.accepted == Pass {
      var yes := s.env.finalApproval.value;
      assert s.env.finalApproval == if yes then Some(true) else Some(false);
    }
  }

  lemma ConcludedRecorded(before: Trace, trace: Trace, report: AttemptReport, s: Setting)
    requires JudgedTrace(before, report, s) && Moved(before, trace, 2)
    ensures Recorded(trace, s) && trace.attempts == before.attempts
  {
  }

  /** A trace with the contract for the next attempt. */
  ghost predicate ContractedTrace(t: Trace, s: Setting) {
    && Recorded(t, s)
    && |t.attempts| == |t.reworks| > 0 && Asked(t, t.reworks[..|t.reworks| - 1], s)
    && t.workerCalls == t.verifierCalls == |t.attempts|
    && |t.committed| <= 8 * |t.reworks| + 2
  }

  lemma ContractingRecorded(before: Trace, trace: Trace, report: AttemptReport, s: Setting)
    requires JudgedTrace(before, report, s) && report.accepted == Contracts.Rework
    requires Contracting(before, trace, s.contract, report.result, |before.reworks| + 1,
                         PreviousFailed(before.reworks, |before.reworks|),
                         AdditionalOf(s.env.worker(|before.reworks|)), s.env)
    ensures Recorded(trace, s) && trace.start == before.start && trace.origin == before.origin
    ensures trace.attempts == before.attempts
    ensures trace.reworks != before.reworks ==>
              && ContractedTrace(trace, s) && |trace.reworks| == |before.reworks| + 1
  {
    hide AttemptsFit, DecisionsFit, Accounted, CallsFit, LegalTrace, ReworkFits;
    if trace.reworks != before.reworks {
      var w := trace.reworks[|before.reworks|];
      assert trace.reworks == before.reworks + [w] && trace.reworks[..|before.reworks|] == before.reworks;
      ReworkAppends(before.attempts, before.reworks, w, s);
    }
  }

  lemma RegatingRecorded(before: Trace, trace: Trace, w: R.ReworkContract, s: Setting)
    requires ContractedTrace(before, s) && GateOpened(before.decisions[|before.extras|], |before.extras|, s.env)
    requires w == before.reworks[|before.reworks| - 1]
    requires Regating(before, trace, Accumulated(s.contract.capabilities, before.extras, |before.extras|),
                      s.contract.scope, s.ceiling, w, s.env)
    ensures AtHead(trace, s) && trace.start == before.start && trace.origin == before.origin
    ensures trace.attempts == before.attempts && trace.reworks == before.reworks
    ensures w.additionalCapabilities.Some? ==>
              Accumulated(s.contract.capabilities, trace.extras, |trace.extras|)
              == MergeCapabilities(Accumulated(s.contract.capabilities, before.extras, |before.extras|),
                                   w.additionalCapabilities.value)
  {
    hide DecisionMade, DecisionsFit, AttemptsFit, ReworksFit, Accounted, CallsFit, LegalTrace;
    if w.additionalCapabilities.Some? {
      var extra := w.additionalCapabilities.value;
      assert OneMore(before.decisions, trace.decisions, before.extras, extra, s);
      DecisionAppends(before.decisions, before.extras, trace.decisions, extra, s);
      AccumulatedNext(s.contract.capabilities, before.extras, extra);
      SubjectsNext(before.decisions, trace.decisions);
    }
  }

  /** One turn of the loop. */
  method Round(db: Database, l: Local, s: Setting, before: Trace)
    returns (r: Result<RoundEnd, Ending>, trace: Trace)
    requires LoopHead(db, before, l, s)
    modifies db`committed, db`working, db`audit
    ensures db.Valid() && Recorded(trace, s) && trace.start == before.start && trace.origin == before.origin
    ensures r.Failure? ==> Interrupted(db, r.error, trace, s.env)
    ensures r.Success? && r.value.Finished? ==>
              Holds(db, trace, r.value.run, s.env) && r.value.run.state in FinalStates(trace, s)
    ensures r.Success? && r.value.Again? ==>
              && LoopHead(db, trace, r.value.next, s)
              && r.value.next.attemptNumber == l.attemptNumber + 1 <= s.contract.budget.maxReworkIterations + 1
  {
    hide Legal, Consistent, Footprint, AllNew, IdsFrom, FailureStored, Interrupted, Remembered, Accounted, CallsFit,
      ReportFits;
    GrantScope(before, s);
    var judgement;
    judgement, trace := Attempt(db, l.run, s.contract, l.grants, l.baseline, s.env, before);
    AttemptRecorded(before, trace, l, s);
    if judgement.Failure? {
      return Failure(judgement.error), trace;
    }
    if judgement.value.Unjudged? {
      return Success(Finished(judgement.value.run)), trace;
    }
    r, trace := Settle(db, l, judgement.value, s, trace);
  }

  /** Acting on a verdict. */
  method Settle(db: Database, l: Local, j: Judgement, s: Setting, before: Trace)
    returns (r: Result<RoundEnd, Ending>, trace: Trace)
    requires j.Judged? && Holds(db, before, j.run, s.env) && j.run.state == Verifying
    requires JudgedTrace(before, j.report, s) && LocalFits(before, l, s)
    requires j.additional == AdditionalOf(s.env.worker(|before.reworks|))
    modifies db`committed, db`working, db`audit
    ensures db.Valid() && Recorded(trace, s) && trace.start == before.start && trace.origin == before.origin
    ensures r.Failure? ==> Interrupted(db, r.error, trace, s.env)
    ensures r.Success? && r.value.Finished? ==>
              Holds(db, trace, r.value.run, s.env) && r.value.run.state in FinalStates(trace, s)
    ensures r.Success? && r.value.Again? ==>
              && LoopHead(db, trace, r.value.next, s)
              && r.value.next.attemptNumber == l.attemptNumber + 1 <= s.contract.budget.maxReworkIterations + 1
  {
    hide Legal, Consistent, Footprint, AllNew, IdsFrom, FailureStored, Interrupted, Recorded, LocalFits;
    if j.report.accepted == Contracts.Rework {
      r, trace := ReworkRound(db, l, j, s, before);
    } else {
      r, trace := FinalRound(db, j, s, before);
    }
  }

  method FinalRound(db: Database, j: Judgement, s: Setting, before: Trace)
    returns (r: Result<RoundEnd, Ending>, trace: Trace)
    requires j.Judged? && Holds(db, before, j.run, s.env) && j.run.state == Verifying
    requires JudgedTrace(before, j.report, s) && j.report.accepted != Contracts.Rework
    modifies db`committed, db`working
    ensures db.Valid() && Recorded(trace, s) && trace.start == before.start && trace.origin == before.origin
    ensures r.Failure? ==> Interrupted(db, r.error, trace, s.env)
    ensures r.Success? ==>
              && r.value.Finished? && Holds(db, trace, r.value.run, s.env)
              && r.value.run.state in FinalStates(trace, s)
  {
    hide Legal, Consistent, Footprint, AllNew, IdsFrom, FailureStored, Interrupted, Remembered, Accounted, CallsFit,
      AttemptsFit, ReworksFit, DecisionsFit;
    var concluded;
    concluded, trace := Conclude(db, j.run, j.report.accepted, s.env, before);
    ConcludedRecorded(before, trace, j.report, s);
    if concluded.Failure? {
      return Failure(concluded.error), trace;
    }
    ConcludedAs(trace, j.report, concluded.value, s);
    return Success(Finished(concluded.value)), trace;
  }

  /** The branch of the loop for a REWORK verdict. */
  method ReworkRound(db: Database, l: Local, j: Judgement, s: Setting, before: Trace)
    returns (r: Result<RoundEnd, Ending>, trace: Trace)
    requires j.Judged? && j.report.accepted == Contracts.Rework
    requires Holds(db, before, j.run, s.env) && j.run.state == Verifying
    requires JudgedTrace(before, j.report, s)
    requires LocalFits(before, l, s) && j.additional == AdditionalOf(s.env.worker(|before.reworks|))
    modifies db`committed, db`working, db`audit
    ensures db.Valid() && Recorded(trace, s) && trace.start == before.start && trace.origin == before.origin
    ensures r.Failure? ==> Interrupted(db, r.error, trace, s.env)
    ensures r.Success? && r.value.Finished? ==>
              && Holds(db, trace, r.value.run, s.env)
              && r.value.run.state == Failed && FailureExplained(trace, s)
    ensures r.Success? && r.value.Again? ==>
              && LoopHead(db, trace, r.value.next, s)
              && r.value.next.attemptNumber == l.attemptNumber + 1 <= s.contract.budget.maxReworkIterations + 1
  {
    hide Legal, Consistent, Footprint, AllNew, IdsFrom, FailureStored, Interrupted, Remembered, AttemptsFit,
      ReworksFit, DecisionsFit, ReportFits, R.Binds, Decided, Accounted, CallsFit, MergeCapabilities, R.FailedIds;
    var contracted;
    contracted, trace := ContractRework(db, j.run, s.contract, j.report.result, l.attemptNumber, l.previousFailed,
                                        j.additional, s.env, before);
    ContractingRecorded(before, trace, j.report, s);
    if contracted.Failure? {
      return Failure(contracted.error), trace;
    }
    if contracted.value.Exhausted? {
      return Success(Finished(contracted.value.run)), trace;
    }
    r, trace := NextRound(db, contracted.value.run, contracted.value.rework, l, j.report.frozen.postTest, s, trace);
  }

  /** With the contract for the next attempt in hand: through the gate again, and
      on with a new baseline. */
  method NextRound(db: Database, run: Run, w: R.ReworkContract, l: Local, baseline: seq<ManifestEntry>, s: Setting,
                   before: Trace)
    returns (r: Result<RoundEnd, Ending>, trace: Trace)
    requires Holds(db, before, run, s.env) && run.state == ContractValidating
    requires ContractedTrace(before, s) && before.reworks[|before.reworks| - 1] == w
    requires w.effectiveScope == s.contract.scope && |before.reworks| == l.attemptNumber
    requires baseline == before.attempts[|before.attempts| - 1].frozen.postTest
    requires InForce(before, l, s)
    modifies db`committed, db`working, db`audit
    ensures db.Valid() && Recorded(trace, s) && trace.start == before.start && trace.origin == before.origin
    ensures r.Failure? ==> Interrupted(db, r.error, trace, s.env)
    ensures r.Success? && r.value.Finished? ==>
              && Holds(db, trace, r.value.run, s.env)
              && r.value.run.state == Failed && FailureExplained(trace, s)
    ensures r.Success? && r.value.Again? ==>
              LoopHead(db, trace, r.value.next, s) && r.value.next.attemptNumber == l.attemptNumber + 1
  {
    hide Legal, Consistent, Footprint, AllNew, IdsFrom, FailureStored, Interrupted, Remembered, AttemptsFit,
      ReworksFit, DecisionsFit, ReportFits, R.Binds, Decided, Accounted, CallsFit, MergeCapabilities, R.FailedIds;
    var regated;
    regated, trace := Regate(db, run, w, s.contract.scope, l.capabilities, l.grants, s.ceiling, s.env, before);
    RegatingRecorded(before, trace, w, s);
    if regated.Failure? {
      return Failure(regated.error), trace;
    }
    if regated.value.Shut? {
      return Success(Finished(regated.value.run)), trace;
    }
    var g := regated.value;
    return Success(Again(Local(g.run, g.grants, g.capabilities, baseline,
                               l.attemptNumber + 1, Some(w.failedIds)))), trace;
  }

  method RunRounds(db: Database, first: Local, s: Setting, before: Trace)
    returns (r: Result<Run, Ending>, trace: Trace)
    requires LoopHead(db, before, first, s)
    requires first.attemptNumber <= s.contract.budget.maxReworkIterations + 1
    modifies db`committed, db`working, db`audit
    ensures db.Valid() && Recorded(trace, s) && trace.start == before.start && trace.origin == before.origin
    ensures r.Failure? ==> Interrupted(db, r.error, trace, s.env)
    ensures r.Success? ==> Holds(db, trace, r.value, s.env) && r.value.state in FinalStates(trace, s)
  {
    hide Legal, Consistent, Footprint, AllNew, IdsFrom, FailureStored, Interrupted, Remembered;
    var l := first;
    trace := before;
    while true
      invariant LoopHead(db, trace, l, s) && trace.start == before.start && trace.origin == before.origin
      invariant l.attemptNumber <= s.contract.budget.maxReworkIterations + 1
      decreases s.contract.budget.maxReworkIterations + 1 - l.attemptNumber
    {
      var end;
      end, trace :- Round(db, l, s, trace);
      if end.Finished? {
        return Success(end.run), trace;
      }
      l := end.next;
    }
  }
}
