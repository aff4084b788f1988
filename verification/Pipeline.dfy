/** The rework pipeline (application/orchestrator.py): one process that drives a
    Run from Created through planning, policy, execution, host validation and
    verification, round after round, while other processes may move the same row
    and this one may die. Providers, verifier, approvers, worktree and clock are
    an arbitrary environment. */
module Pipeline {
  import opened Wrappers
  import opened Lifecycle
  import opened Journal
  import opened Database
  import opened Manifest
  import opened Scope
  import opened Policy
  import opened Contracts
  import opened Evidence
  import opened Verification
  import R = Rework
  import Actors
  import opened Trail
  import opened Rounds

  /* ---- Planning -------------------------------------------------------------------------------- */

  datatype Planned = NoPlan(run: Run) | Plan(run: Run, contract: TaskContract)

  predicate NoContract(failure: Option<Failing>, output: PlannerOutput) {
    || (failure == Some(Failing(During(Planning), ExecutionFailed)) && output == NoOutput)
    || (failure == Some(Failing(During(ContractValidating), SchemaInvalid)) && output == Malformed)
  }

  /** There is no contract: the budget was used up before planning, the planner took
      too long, or what it gave is none. */
  predicate Unplanned(t: Trace, ceiling: Ceiling, env: Environment) {
    || (t.failure == Some(Failing(During(Planning), ExecutionFailed))
        && OverBudget(t.start.budgetUsed, ceiling.budget, env, 0, 0, 0))
    || (t.failure == Some(Failing(During(Planning), TimedOut)) && env.planner.PlannerTimedOut?)
    || (env.planner.PlannerAnswered? && NoContract(t.failure, env.planner.output))
  }

  /** From Created to a validated contract. */
  method MakePlan(db: Database, run: Run, ceiling: Ceiling, env: Environment, before: Trace)
    returns (r: Result<Planned, Ending>, trace: Trace)
    requires Holds(db, before, run, env) && run.state == Created && before == NewTrace(before.origin, run)
    modifies db`committed, db`working, db`audit
    ensures db.Valid() && LegalTrace(trace)
    ensures trace == before.(committed := trace.committed, contract := trace.contract, failure := trace.failure,
                             plannerCalls := trace.plannerCalls, used := trace.used)
    ensures |trace.committed| <= 3 && trace.plannerCalls <= 1 && Thrifty(trace, ceiling.budget, env)
    ensures trace.contract.Some? ==>
              && |trace.committed| == 2 && trace.plannerCalls == 1
              && env.planner.PlannerAnswered? && env.planner.output == Proposed(trace.contract.value)
    ensures r.Failure? ==> Interrupted(db, r.error, trace, env)
    ensures r.Success? ==> Holds(db, trace, r.value.run, env)
    ensures r.Success? && r.value.NoPlan? ==>
              r.value.run.state == Failed && trace.contract == None && Unplanned(trace, ceiling, env)
    ensures r.Success? && r.value.Plan? ==>
              r.value.run.state == ContractValidating && trace.contract == Some(r.value.contract)
  {
    hide Legal, Consistent, Footprint, AllNew, IdsFrom, FailureStored, Interrupted, Remembered, Accounted, CallsFit,
      R.WithinBudget, R.AccumulateUsage;
    NothingSpent(before.origin, run, ceiling.budget, env);
    BudgetIsChecked(run.budgetUsed, run.budgetUsed, ceiling.budget, env, 0, 0, 0);
    var current;
    current, trace :- Advance(db, run, Planning, None, env, before);
    if !R.WithinBudget(run.budgetUsed, ceiling.budget) {
      current, trace :- Fail(db, current, During(Planning), ExecutionFailed, env, trace);
      return Success(NoPlan(current)), trace;
    }
    PlannerBooked(run.budgetUsed, ceiling.budget, env);
    trace := trace.(plannerCalls := 1);
    assert At(trace, current);
    if env.planner.PlannerRaised? {
      GivesUp(db, trace, current, env);
      return Failure(Aborted), trace;
    }
    if env.planner.PlannerTimedOut? {
      current, trace :- Fail(db, current, During(Planning), TimedOut, env, trace);
      return Success(NoPlan(current)), trace;
    }
    trace := trace.(used := Booked(trace.used, env.planner.usage));
    assert At(trace, current);
    r, trace := ValidateContract(db, current, env.planner.output, env, trace);
  }

  lemma NothingSpent(origin: Origin, run: Run, budget: Budget, env: Environment)
    ensures Thrifty(NewTrace(origin, run), budget, env)
  {
  }

  /** The planner's output, once there is an answer. An accepted contract is
      stored under the id the planner gave it. */
  method ValidateContract(db: Database, run: Run, output: PlannerOutput, env: Environment, before: Trace)
    returns (r: Result<Planned, Ending>, trace: Trace)
    requires Holds(db, before, run, env) && run.state == Planning && before.contract == None
    modifies db`committed, db`working, db`audit
    ensures db.Valid() && LegalTrace(trace)
    ensures trace == before.(committed := trace.committed, contract := trace.contract, failure := trace.failure)
    ensures |trace.committed| <= |before.committed| + 2
    ensures trace.contract.Some? ==>
              |trace.committed| == |before.committed| + 1 && output == Proposed(trace.contract.value)
    ensures r.Failure? ==> Interrupted(db, r.error, trace, env)
    ensures r.Success? ==> Holds(db, trace, r.value.run, env)
    ensures r.Success? && r.value.NoPlan? ==>
              r.value.run.state == Failed && trace.contract == None && NoContract(trace.failure, output)
    ensures r.Success? && r.value.Plan? ==>
              r.value.run.state == ContractValidating && trace.contract == Some(r.value.contract)
  {
    hide Legal, Consistent, Footprint, AllNew, IdsFrom, FailureStored, Interrupted, Remembered;
    var current;
    if output == NoOutput {
      current, trace :- Fail(db, run, During(Planning), ExecutionFailed, env, before);
      return Success(NoPlan(current)), trace;
    }
    current, trace :- Advance(db, run, ContractValidating, None, env, before);
    if output == Malformed {
      current, trace :- Fail(db, current, During(ContractValidating), SchemaInvalid, env, trace);
      return Success(NoPlan(current)), trace;
    }
    var validating := trace;
    trace := trace.(contract := Some(output.contract));
    assert At(trace, current);
    ContractIsARow(validating, output.contract);
    var _ :- Store(db, current, ContractTable, output.contract.contractId, env, validating, trace);
    return Success(Plan(current, output.contract)), trace;
  }

  /* ---- run_task_pipeline -------------------------------------------------------------------------------- */

  ghost predicate JustPlanned(t: Trace, contract: TaskContract, ceiling: Ceiling, env: Environment) {
    && t == NewTrace(t.origin, t.start).(committed := t.committed, contract := Some(contract), plannerCalls := 1,
                                         used := t.used, failure := t.failure)
    && LegalTrace(t) && |t.committed| == 2 && Thrifty(t, ceiling.budget, env)
  }

  /** What the trace of any behaviour of the pipeline satisfies. Without a decision
      the contract, if there is one, could not be stored. */
  ghost predicate RunRecorded(t: Trace, ceiling: Ceiling, env: Environment) {
    match t.contract
    case Some(c) =>
      && env.planner.PlannerAnswered? && env.planner.output == Proposed(c)
      && if t.decisions == [] then JustPlanned(t, c, ceiling, env) else Recorded(t, Setting(c, ceiling, env))
    case None =>
      && LegalTrace(t) && |t.committed| <= 3 && t.plannerCalls <= 1 && Thrifty(t, ceiling.budget, env)
      && t.attempts == [] && t.reworks == [] && t.decisions == [] && t.workerCalls == 0 && t.verifierCalls == 0
  }

  lemma CreatedCannotFail(db: Db, run: Run, q: Request)
    requires Remembered(db, run) && run.state == Created
    requires q.runId == run.runId && q.target == Failed && q.expectedVersion == run.stateVersion
    ensures !Commits(db, q)
    ensures Refusal(db, q)
            == if db.runs[run.runId].stateVersion == run.stateVersion then Refused(NotInTable) else VersionMismatch
  {
  }

  /** The one exit that asks for a transition the table refuses: no repository
      state, no planning, and a Run that cannot be failed out of Created. */
  method FailBeforePlanning(db: Database, run: Run, when: Moment) returns (e: Ending)
    requires db.Valid() && Remembered(db.committed, run) && run.state == Created
    modifies db`committed, db`working
    ensures db.Valid() && Remembered(db.committed, run)
    ensures when.others == [] ==> db.committed == old(db.committed)
    ensures e in {Died, Raised(VersionMismatch), Raised(Refused(NotInTable)), Raised(Locked)}
    ensures e == Raised(Locked) <==> when.locked
  {
    Actors.Interfere(db, when.others, run);
    if when.locked {
      return Raised(Locked);
    }
    var failure := FailureRecord(when.ids.failureId, run.runId, During(Planning), ExecutionFailed, false, "", when.now);
    var q := Request(run.runId, Failed, when.now, run.stateVersion, Harness("orchestrator"), "run-" + run.runId,
                     Some(failure), None, when.ids.entryId);
    CreatedCannotFail(db.committed, run, q);
    var applied := db.ApplyTransition(q, when.crashAt);
    e := if applied.RolledBack? then Raised(applied.error) else Died;
  }

  /** From an accepted plan to the end. */
  method Carry(db: Database, run: Run, contract: TaskContract, ceiling: Ceiling, env: Environment,
               before: Trace)
    returns (r: Result<Run, Ending>, trace: Trace)
    requires Holds(db, before, run, env) && run.state == ContractValidating
    requires JustPlanned(before, contract, ceiling, env)
    modifies db`committed, db`working, db`audit
    ensures db.Valid() && Recorded(trace, Setting(contract, ceiling, env))
    ensures trace.start == before.start && trace.origin == before.origin
    ensures r.Failure? ==> Interrupted(db, r.error, trace, env)
    ensures r.Success? ==>
              && Holds(db, trace, r.value, env)
              && r.value.state in FinalStates(trace, Setting(contract, ceiling, env))
  {
    hide Legal, Consistent, Footprint, AllNew, IdsFrom, FailureStored, Interrupted, Remembered;
    var s := Setting(contract, ceiling, env);
    var gate;
    var subject := ContractSubject(contract.contractId, contract.digest);
    gate, trace := GatePolicy(db, run, subject, contract.capabilities, contract.scope, ceiling, env, before);
    FirstDecision(before, trace, s);
    if gate.Failure? {
      return Failure(gate.error), trace;
    }
    if gate.value.Closed? {
      return Success(gate.value.run), trace;
    }
    r, trace := Prepare(db, gate.value.run, gate.value.decision.body.grants, s, trace);
  }

  /** The worktree and its first manifest, then the loop. */
  method Prepare(db: Database, run: Run, grants: Grants, s: Setting, before: Trace)
    returns (r: Result<Run, Ending>, trace: Trace)
    requires Holds(db, before, run, s.env) && (run.state == ContractValidating || run.state == AwaitingApproval)
    requires AtHead(before, s) && FirstGate(before, grants, s.env) && |before.committed| <= 3
    modifies db`committed, db`working, db`audit
    ensures db.Valid() && Recorded(trace, s) && trace.start == before.start && trace.origin == before.origin
    ensures r.Failure? ==> Interrupted(db, r.error, trace, s.env)
    ensures r.Success? ==> Holds(db, trace, r.value, s.env) && r.value.state in FinalStates(trace, s)
  {
    hide Legal, Consistent, Footprint, AllNew, IdsFrom, FailureStored, Interrupted, Remembered, AttemptsFit,
      ReworksFit, DecisionsFit, OpenedUpTo, Accounted, CallsFit;
    var current;
    current, trace :- Advance(db, run, PreparingWorkspace, None, s.env, before);
    match s.env.worktree
    case BaselineRaised =>
      GivesUp(db, trace, current, s.env);
      return Failure(Aborted), trace;
    case WorktreeFailed => r, trace := Fail(db, current, During(PreparingWorkspace), ExecutionFailed, s.env, trace);
    case WorktreeReady(_) => r, trace := Begin(db, current, grants, s, before, trace);
  }

  method Begin(db: Database, run: Run, grants: Grants, s: Setting, ghost gated: Trace, before: Trace)
    returns (r: Result<Run, Ending>, trace: Trace)
    requires Holds(db, before, run, s.env) && run.state == PreparingWorkspace && s.env.worktree.WorktreeReady?
    requires AtHead(gated, s) && FirstGate(gated, grants, s.env) && |gated.committed| <= 3
    requires before == Step(gated, PreparingWorkspace)
    modifies db`committed, db`working, db`audit
    ensures db.Valid() && Recorded(trace, s) && trace.start == before.start && trace.origin == before.origin
    ensures r.Failure? ==> Interrupted(db, r.error, trace, s.env)
    ensures r.Success? ==> Holds(db, trace, r.value, s.env) && r.value.state in FinalStates(trace, s)
  {
    hide Legal, Consistent, Footprint, AllNew, IdsFrom, FailureStored, Interrupted, Remembered, AtHead, Recorded,
      FirstGate, FinalStates;
    var first := Local(run, grants, s.contract.capabilities, s.env.worktree.baseline, 1, None);
    FirstHead(gated, before, first, s);
    r, trace := RunRounds(db, first, s, before);
  }

  lemma FirstHead(before: Trace, trace: Trace, first: Local, s: Setting)
    requires AtHead(before, s) && FirstGate(before, first.grants, s.env) && |before.committed| <= 3
    requires trace == Step(before, PreparingWorkspace) && LegalTrace(trace)
    requires first == Local(first.run, first.grants, s.contract.capabilities, FirstBaseline(s.env), 1, None)
    ensures AtHead(trace, s) && LocalFits(trace, first, s)
    ensures first.baseline == BaselineOf(trace.attempts, FirstBaseline(s.env), |trace.attempts|)
  {
  }

  /** Nothing but an opened gate so far. */
  ghost predicate FirstGate(t: Trace, grants: Grants, env: Environment) {
    && t.attempts == [] && t.reworks == [] && t.extras == [] && |t.decisions| == 1
    && t.decisions[0].body.grants == grants && GateOpened(t.decisions[0], 0, env)
  }

  lemma FirstDecision(before: Trace, trace: Trace, s: Setting)
    requires JustPlanned(before, s.contract, s.ceiling, s.env)
    requires Gated(before, trace, ContractSubject(s.contract.contractId, s.contract.digest), s.contract.capabilities,
                   s.contract.scope, s.ceiling, s.env)
    ensures AtHead(trace, s) && trace.start == before.start && trace.origin == before.origin
    ensures GateOpened(trace.decisions[0], 0, s.env) ==> FirstGate(trace, trace.decisions[0].body.grants, s.env)
  {
    assert DecidedAt(trace.decisions, [], 0, s);
  }

  /** The states the Run has gone through since `start`, as its journal has them. */
  function StatesSince(journal: seq<Entry>, initial: map<string, Run>, start: Run): seq<State>
    requires start.runId in initial
  {
    var rows := RowsOf(journal, start.runId);
    var k := start.stateVersion - initial[start.runId].stateVersion;
    if 0 <= k <= |rows| then seq(|rows| - k, i requires 0 <= i < |rows| - k => rows[k + i].body.stateAfter) else []
  }

  /** While nobody else has moved the Run, its journal since the start is the trace. */
  lemma JournalIsTrace(db: Database, t: Trace, run: Run, env: Environment)
    requires Holds(db, t, run, env) && t.committed != []
    ensures t.start.runId in db.initial && StatesSince(db.committed.journal, db.initial, t.start) == t.committed
    ensures Audited(db.audit, t.origin.audit, env, IdsOf(t))
    ensures Tied(db.committed.journal, db.initial, t.start, t.committed, env)
    ensures FailureStored(db.committed.failures, t.start.runId, t.committed, t.failure, env)
  {
    hide Consistent, RowsOf, Audited, Alone, AllNew, FailureStored, RowAsAsked, StatesSince, IdsFrom, Legal;
    VersionCountsRows(db.committed, db.initial, run.runId, db.hash);
    TiedIsStates(db.committed.journal, db.initial, t.start, t.committed, env);
  }

  lemma TiedIsStates(journal: seq<Entry>, initial: map<string, Run>, start: Run, committed: seq<State>,
                     env: Environment)
    requires Tied(journal, initial, start, committed, env) && committed != []
    requires |RowsOf(journal, start.runId)|
             == start.stateVersion - initial[start.runId].stateVersion + |committed|
    ensures StatesSince(journal, initial, start) == committed
  {
    hide RowsOf;
    var rows, k := RowsOf(journal, start.runId), start.stateVersion - initial[start.runId].stateVersion;
    forall i | 0 <= i < |committed| ensures rows[k + i].body.stateAfter == committed[i] {
      assert RowAsAsked(rows[k + i], start.runId, committed[i], env.moment(i));
    }
  }

  /** `run_task_pipeline`, for every behaviour of the environment. It always ends;
      whatever it asks of the lifecycle is legal, so that only an interruption with
      its evidence stops it, except for the one exit above; an audit table refuses
      a row exactly when the run reuses a key; its record obeys all the rules and
      is what the journal shows; where it ends is explained by the last answers;
      and when nothing goes wrong around it, it returns a Run. */
  method RunTaskPipeline(db: Database, run: Run, ceiling: Ceiling, env: Environment)
    returns (r: Result<Run, Ending>, trace: Trace)
    requires db.Valid() && Remembered(db.committed, run) && run.state == Created
    modifies db`committed, db`working, db`audit
    ensures db.Valid() && trace.start == run && trace.origin == Origin(old(db.committed), old(db.audit))
    ensures RunRecorded(trace, ceiling, env)
    ensures env.repositoryResolved && r.Failure? ==> Interrupted(db, r.error, trace, env)
    ensures r.Failure? && r.error.Duplicate? <==>
              !AllNew(trace.origin.audit, env, if r.Failure? then AskedFor(r.error, trace) else IdsOf(trace))
    ensures !env.repositoryResolved ==>
              && r.Failure? && trace == NewTrace(trace.origin, run) && db.audit == old(db.audit)
              && r.error in {Died, Raised(VersionMismatch), Raised(Refused(NotInTable)), Raised(Locked)}
              && (env.moment(0).others == [] ==> db.committed == old(db.committed))
    ensures r.Success? ==>
              && db.committed.runs[run.runId] == r.value && At(trace, r.value)
              && run.runId in db.initial
              && StatesSince(db.committed.journal, db.initial, run) == trace.committed
              && Tied(db.committed.journal, db.initial, run, trace.committed, env)
              && FailureStored(db.committed.failures, run.runId, trace.committed, trace.failure, env)
              && Audited(db.audit, old(db.audit), env, IdsOf(trace))
              && match trace.contract
                 case Some(c) => r.value.state in FinalStates(trace, Setting(c, ceiling, env))
                 case None => r.value.state == Failed && Unplanned(trace, ceiling, env)
    ensures Calm(env, run, trace.origin) ==> r.Success?
  {
    hide Consistent, AllNew, Audited, Calm, StatesSince, Footprint, FinalStates, Tied, FailureStored, Unplanned,
      SomethingRaised;
    trace := NewTrace(Origin(db.committed, db.audit), run);
    FreshRead(db, run, env);
    NothingSpent(trace.origin, run, ceiling.budget, env);
    if !env.repositoryResolved {
      var e := FailBeforePlanning(db, run, env.moment(0));
      CalmIsResolved(env, run, trace.origin);
      return Failure(e), trace;
    }
    r, trace := Drive(db, run, ceiling, env, trace);
    if r.Success? {
      JournalIsTrace(db, trace, r.value, env);
    } else if Calm(env, run, trace.origin) {
      CalmIsNotInterrupted(db, r.error, trace, ceiling, env);
    }
  }

  /** From an unplanned Run to the end. */
  method Drive(db: Database, run: Run, ceiling: Ceiling, env: Environment, before: Trace)
    returns (r: Result<Run, Ending>, trace: Trace)
    requires Holds(db, before, run, env) && run.state == Created && before == NewTrace(before.origin, run)
    modifies db`committed, db`working, db`audit
    ensures db.Valid() && trace.start == run && trace.origin == before.origin
    ensures RunRecorded(trace, ceiling, env)
    ensures r.Failure? ==> Interrupted(db, r.error, trace, env)
    ensures r.Success? ==>
              && Holds(db, trace, r.value, env) && trace.committed != []
              && match trace.contract
                 case Some(c) => r.value.state in FinalStates(trace, Setting(c, ceiling, env))
                 case None => r.value.state == Failed && Unplanned(trace, ceiling, env)
  {
    hide Consistent, Footprint, AllNew, Legal, AttemptsFit, ReworksFit, DecidedAt, OpenedUpTo, Accounted, CallsFit;
    var plan;
    plan, trace :- MakePlan(db, run, ceiling, env, before);
    if plan.NoPlan? {
      return Success(plan.run), trace;
    }
    r, trace := Carry(db, plan.run, plan.contract, ceiling, env, trace);
  }

  /* ---- When every row is stored, and when a Run is returned --------------------------------------- */

  /** The keys of one table are not in use and pairwise different. */
  ghost predicate Distinct(found: set<Key>, table: Table, ids: seq<string>) {
    && (forall i :: 0 <= i < |ids| ==> Key(table, ids[i]) !in found)
    && (forall i, j :: 0 <= i < j < |ids| ==> ids[i] != ids[j])
  }

  ghost predicate TableNew(found: set<Key>, env: Environment, table: Table, ids: seq<string>) {
    forall i :: 0 <= i < |ids| ==> NewAt(found, env, table, ids, i)
  }

  ghost predicate NothingElsewhere(env: Environment) {
    forall table, n: nat :: env.elsewhere(table, n) == {}
  }

  lemma {:induction false} NoOthers(env: Environment, table: Table, n: nat)
    requires NothingElsewhere(env)
    ensures Others(env, table, n) == {}
  {
    if n > 0 {
      NoOthers(env, table, n - 1);
    }
  }

  lemma NewExactlyIfDistinct(found: set<Key>, env: Environment, table: Table, ids: seq<string>)
    requires NothingElsewhere(env)
    ensures TableNew(found, env, table, ids) <==> Distinct(found, table, ids)
  {
    forall n: nat ensures Others(env, table, n) == {} {
      NoOthers(env, table, n);
    }
    if TableNew(found, env, table, ids) {
      forall i | 0 <= i < |ids| ensures Key(table, ids[i]) !in found {
        assert NewAt(found, env, table, ids, i);
      }
      forall i, j | 0 <= i < j < |ids| ensures ids[i] != ids[j] {
        assert NewAt(found, env, table, ids, j) && ids[..j][i] == ids[i];
      }
    }
  }

  /** The ids the pipeline draws are new. */
  ghost predicate FreshDraws(env: Environment, found: set<Key>) {
    && (forall i: nat :: Key(DecisionTable, env.decisionId(i)) !in found)
    && (forall i: nat :: Key(ReworkTable, env.reworkId(i)) !in found)
    && (forall i: nat, j: nat :: i < j ==> env.decisionId(i) != env.decisionId(j))
    && (forall i: nat, j: nat :: i < j ==> env.reworkId(i) != env.reworkId(j))
  }

  /** Run alone and with new ids drawn for decisions and rework contracts, every
      row is stored if and only if the planner's contract id is not in use and the
      ids of the verifier's answers are not in use and pairwise different. */
  lemma RowsStoredExactly(t: Trace, ceiling: Ceiling, env: Environment)
    requires RunRecorded(t, ceiling, env) && NothingElsewhere(env) && FreshDraws(env, t.origin.audit)
    ensures AllNew(t.origin.audit, env, IdsOf(t)) <==>
              && (t.contract.Some? ==> Key(ContractTable, t.contract.value.contractId) !in t.origin.audit)
              && Distinct(t.origin.audit, VerificationTable, VerificationIds(t.attempts))
  {
    hide RunRecorded, FreshDraws, Distinct, NewAt, TableNew;
    var found, ids := t.origin.audit, IdsOf(t);
    NewExactlyIfDistinct(found, env, ContractTable, ids.contracts);
    NewExactlyIfDistinct(found, env, DecisionTable, ids.decisions);
    NewExactlyIfDistinct(found, env, VerificationTable, ids.verifications);
    NewExactlyIfDistinct(found, env, ReworkTable, ids.reworks);
    DrawnIdsAreDistinct(t, ceiling, env);
    OneIsDistinct(found, t.contract);
    AllNewByTable(found, env, ids);
  }

  lemma OneIsDistinct(found: set<Key>, contract: Option<TaskContract>)
    ensures Distinct(found, ContractTable, if contract.None? then [] else [contract.value.contractId])
            <==> (contract.Some? ==> Key(ContractTable, contract.value.contractId) !in found)
  {
    if contract.Some? {
      assert [contract.value.contractId][0] == contract.value.contractId;
    }
  }

  lemma AllNewByTable(found: set<Key>, env: Environment, ids: Ids)
    ensures AllNew(found, env, ids) <==>
              && TableNew(found, env, ContractTable, ids.contracts)
              && TableNew(found, env, DecisionTable, ids.decisions)
              && TableNew(found, env, VerificationTable, ids.verifications)
              && TableNew(found, env, ReworkTable, ids.reworks)
  {
    hide NewAt;
    assert ids.In(ContractTable) == ids.contracts && ids.In(DecisionTable) == ids.decisions;
    assert ids.In(VerificationTable) == ids.verifications && ids.In(ReworkTable) == ids.reworks;
  }

  lemma DrawnIdsAreDistinct(t: Trace, ceiling: Ceiling, env: Environment)
    requires RunRecorded(t, ceiling, env) && FreshDraws(env, t.origin.audit)
    ensures Distinct(t.origin.audit, DecisionTable, DecisionIds(t.decisions))
    ensures Distinct(t.origin.audit, ReworkTable, ReworkIds(t.reworks))
  {
    hide Decided, R.Binds, LegalTrace, Thrifty, AttemptFits;
    if t.decisions != [] {
      var s := Setting(t.contract.value, ceiling, env);
      forall i | 0 <= i < |t.decisions| ensures DecisionIds(t.decisions)[i] == env.decisionId(i) {
        assert DecidedAt(t.decisions, t.extras, i, s);
      }
      forall i | 0 <= i < |t.reworks| ensures ReworkIds(t.reworks)[i] == env.reworkId(i) {
        assert ReworkBound(t.attempts, t.reworks, i, s);
      }
    }
  }

  /** The identifiers drawn for transitions are new. */
  ghost predicate FreshMoments(env: Environment, found: Db) {
    && (forall i: nat :: env.moment(i).ids.entryId !in Actors.EntryIds(found.journal))
    && (forall i: nat :: env.moment(i).ids.failureId !in found.failures)
    && (forall i: nat, j: nat :: i < j ==>
          env.moment(i).ids.entryId != env.moment(j).ids.entryId
          && env.moment(i).ids.failureId != env.moment(j).ids.failureId)
  }

  /** Every answer is one the pipeline handles, and a REWORK verdict names what
      failed and how to fix it. */
  ghost predicate NothingRaises(env: Environment) {
    && !env.planner.PlannerRaised? && !env.worktree.BaselineRaised? && env.finalApproval.Some?
    && (forall i: nat :: env.approval(i).Some?)
    && (forall i: nat :: !env.worker(i).WorkerRaised?)
    && (forall i: nat :: env.observed(i).Some?)
    && (forall i: nat :: Usable(env.verifier(i)))
  }

  predicate Usable(a: VerifierAnswer) {
    && !VerifierRaises(a)
    && (a.VerifierAnswered? && a.result.decision == Contracts.Rework ==>
          R.FailedIds(a.result) != {} && "" !in a.result.requiredFixes)
  }

  /** The planner's and the verifier's own ids are new. */
  ghost predicate FreshAnswers(env: Environment, found: set<Key>) {
    && (env.planner.PlannerAnswered? && env.planner.output.Proposed? ==>
          Key(ContractTable, env.planner.output.contract.contractId) !in found)
    && (forall i: nat :: env.verifier(i).VerifierAnswered? ==>
          Key(VerificationTable, env.verifier(i).result.verificationId) !in found)
    && (forall i: nat, j: nat :: i < j && env.verifier(i).VerifierAnswered? && env.verifier(j).VerifierAnswered? ==>
          env.verifier(i).result.verificationId != env.verifier(j).result.verificationId)
  }

  ghost predicate NeverBusy(env: Environment) {
    forall table, n: nat :: !env.busy(table, n)
  }

  /** Nothing goes wrong around the pipeline: the Run is as it was read, nobody
      else moves it or writes, the process lives, no answer raises, and no
      identifier is used twice. */
  ghost predicate Calm(env: Environment, run: Run, origin: Origin) {
    && env.repositoryResolved && run.runId in origin.tables.runs && origin.tables.runs[run.runId] == run
    && Undisturbed(env) && NothingElsewhere(env) && NeverBusy(env) && NothingRaises(env)
    && FreshMoments(env, origin.tables) && FreshDraws(env, origin.audit) && FreshAnswers(env, origin.audit)
  }

  /** Such environments exist: one that plans, works and passes, for a Run just inserted. */
  lemma SomeCalm(run: Run, contract: TaskContract, seen: Observed)
    returns (env: Environment, origin: Origin)
    ensures Calm(env, run, origin) && env.planner == PlannerAnswered(None, Proposed(contract))
  {
    var passed := CriterionVerification("c", Passed, ["e"], "");
    var none: set<string> := {};
    var nobody := Names("", "", "", "");
    origin := Origin(EMPTY_DB.(runs := map[run.runId := run]), {});
    env := Environment(
      true, (i: nat) => Moment(0, Actors.Ids(Tally(i), Tally(i)), [], false, 9),
      PlannerAnswered(None, Proposed(contract)), WorktreeReady([]),
      (i: nat) => Some(true), (i: nat) => WorkerAnswered(None, None), (i: nat) => Some(seen),
      (i: nat) => VerifierAnswered(None, VerificationResult(Tally(i), nobody, Pass, [passed], [], [], [], [], [], [])),
      Some(true), Tally, Tally, (table: Table, n: nat) => none, (table: Table, n: nat) => false,
      (b: DecisionBody) => "", (w: R.ReworkContract) => "");
    forall i: nat, j: nat | i < j ensures Tally(i) != Tally(j) {
      assert |Tally(i)| != |Tally(j)|;
    }
    assert FreshMoments(env, origin.tables);
    assert FreshDraws(env, origin.audit) && FreshAnswers(env, origin.audit) && NothingRaises(env);
  }

  lemma CalmIsResolved(env: Environment, run: Run, origin: Origin)
    ensures Calm(env, run, origin) ==> env.repositoryResolved
  {
  }

  lemma CalmKeysAreNew(t: Trace, ceiling: Ceiling, env: Environment)
    requires RunRecorded(t, ceiling, env) && Calm(env, t.start, t.origin)
    ensures AllNew(t.origin.audit, env, IdsOf(t))
  {
    hide AllNew, FreshDraws, FreshMoments, NothingRaises, ReworksFit, DecisionsFit, Thrifty, LegalTrace, ReportFits;
    RowsStoredExactly(t, ceiling, env);
    var ids := VerificationIds(t.attempts);
    forall i | 0 <= i < |ids|
      ensures env.verifier(i).VerifierAnswered? && ids[i] == env.verifier(i).result.verificationId
    {
      assert AttemptFits(t.attempts, i, Setting(t.contract.value, ceiling, env));
    }
  }

  /** No REWORK verdict of such an environment leaves the pipeline without a
      rework contract. */
  lemma CalmIsBuildable(t: Trace, ceiling: Ceiling, env: Environment)
    requires RunRecorded(t, ceiling, env) && NothingRaises(env)
    ensures !Unbuildable(t)
  {
    hide ReworksFit, DecisionsFit, Thrifty, LegalTrace, ObservedAs, PassBelieved, R.FailedIds;
    if t.contract.Some? && t.attempts != [] {
      var n := |t.attempts| - 1;
      assert AttemptFits(t.attempts, n, Setting(t.contract.value, ceiling, env));
      assert Usable(env.verifier(n));
    }
  }

  lemma CalmIsNotRaised(t: Trace, ceiling: Ceiling, env: Environment)
    requires RunRecorded(t, ceiling, env) && NothingRaises(env)
    ensures !SomethingRaised(t, env)
  {
    hide RunRecorded, Unbuildable, WellFormed;
    CalmIsBuildable(t, ceiling, env);
    if t.verifierCalls > 0 {
      assert Usable(env.verifier(t.verifierCalls - 1));
    }
  }

  lemma CalmIdsAreFree(db: Db, t: Trace, env: Environment)
    requires Alone(db, t.origin.tables, env, t.start, |t.committed|) && FreshMoments(env, t.origin.tables)
    ensures env.moment(|t.committed|).ids.entryId !in Actors.EntryIds(db.journal)
    ensures env.moment(|t.committed|).ids.failureId !in db.failures
  {
    hide Actors.EntryIds;
  }

  /** When nothing goes wrong, there is no cause to end without a Run. */
  lemma CalmIsNotInterrupted(db: Database, e: Ending, t: Trace, ceiling: Ceiling, env: Environment)
    requires RunRecorded(t, ceiling, env) && Calm(env, t.start, t.origin)
    ensures !Interrupted(db, e, t, env)
  {
    hide RunRecorded, Tied, Audited, AllNew, FreshMoments, FreshDraws, FreshAnswers, NothingRaises, SomethingRaised;
    CalmKeysAreNew(t, ceiling, env);
    CalmIsNotRaised(t, ceiling, env);
    if Interrupted(db, e, t, env) {
      CalmIdsAreFree(db.committed, t, env);
    }
  }

  /* ---- What a run of the pipeline means --------------------------------------------------------------------- */

  /** With m the contract's rework iterations: at most m + 1 calls of the worker and
      of the verifier, and at most 8m + 10 transitions. */
  lemma RunIsBounded(t: Trace, s: Setting)
    requires Recorded(t, s)
    ensures var m := s.contract.budget.maxReworkIterations;
            && t.workerCalls <= m + 1 && t.verifierCalls <= m + 1 && |t.attempts| <= m + 1
            && |t.committed| <= 8 * m + 10
  {
    assert |t.reworks| <= s.contract.budget.maxReworkIterations;
  }

  /** The turns reported in the first `n` answers of the worker, and of the verifier. */
  function WorkerTurns(env: Environment, n: nat): nat {
    if n == 0 then 0
    else
      WorkerTurns(env, n - 1)
      + match env.worker(n - 1)
        case WorkerAnswered(Some(u), _) => u.turns.GetOr(0)
        case _ => 0
  }

  function VerifierTurns(env: Environment, n: nat): nat {
    if n == 0 then 0
    else
      VerifierTurns(env, n - 1)
      + match env.verifier(n - 1)
        case VerifierAnswered(Some(u), r) => if WellFormed(r) then u.turns.GetOr(0) else 0
        case _ => 0
  }

  function PlannerTurns(env: Environment): nat {
    match env.planner
    case PlannerAnswered(Some(u), _) => u.turns.GetOr(0)
    case _ => 0
  }

  lemma {:induction false} ReportedIsSum(env: Environment, worker: nat, verifier: nat)
    ensures TurnsReported(env, 1, worker, verifier)
            == PlannerTurns(env) + WorkerTurns(env, worker) + VerifierTurns(env, verifier)
  {
    hide WellFormed;
    if worker > 0 {
      ReportedIsSum(env, worker - 1, verifier);
    } else if verifier > 0 {
      ReportedIsSum(env, 0, verifier - 1);
    }
  }

  /** Every call is made with all turns reported before it within the ceiling: the
      planner's with what the Run had used, the worker's `k`-th with the planner's turns
      and those of `k` rounds, the verifier's with those of the worker just done too. */
  lemma NoCallOverBudget(t: Trace, s: Setting, k: nat)
    requires Recorded(t, s)
    ensures var used, most := t.start.budgetUsed.turnsUsed, s.ceiling.budget.maxTurns;
            && used <= most
            && (k < t.workerCalls ==>
                  used + PlannerTurns(s.env) + WorkerTurns(s.env, k) + VerifierTurns(s.env, k) <= most)
            && (k < t.verifierCalls ==>
                  used + PlannerTurns(s.env) + WorkerTurns(s.env, k + 1) + VerifierTurns(s.env, k) <= most)
    ensures t.start.budgetUsed.reworkUsed <= s.ceiling.budget.maxReworkIterations
  {
    hide AttemptsFit, ReworksFit, DecisionsFit, LegalTrace, TurnsReported, WorkerTurns, VerifierTurns;
    ReportedIsSum(s.env, k, k);
    ReportedIsSum(s.env, k + 1, k);
    NothingReportedYet(s.env);
    assert k < t.workerCalls ==> !OverBudget(t.start.budgetUsed, s.ceiling.budget, s.env, 1, k, k);
    assert k < t.verifierCalls ==> !OverBudget(t.start.budgetUsed, s.ceiling.budget, s.env, 1, k + 1, k);
  }

  lemma NothingReportedYet(env: Environment)
    ensures TurnsReported(env, 0, 0, 0) == 0
  {
  }

  /** And a Run that fails for its budget has used it up. */
  lemma OverBudgetMeans(t: Trace, budget: Budget, env: Environment)
    requires t.plannerCalls == 1
    ensures OverBudget(t.start.budgetUsed, budget, env, 1, t.workerCalls, t.verifierCalls)
            <==> || t.start.budgetUsed.turnsUsed + PlannerTurns(env) + WorkerTurns(env, t.workerCalls)
                    + VerifierTurns(env, t.verifierCalls) > budget.maxTurns
                 || t.start.budgetUsed.reworkUsed > budget.maxReworkIterations
  {
    ReportedIsSum(env, t.workerCalls, t.verifierCalls);
  }

  /** What the decisions are on: the contract first, then the rework contracts that
      ask for more, each under the digest it was sealed with. */
  lemma DecisionsAreOn(t: Trace, s: Setting, i: nat)
    requires Recorded(t, s) && i < |t.decisions|
    ensures i == 0 ==> t.decisions[0].body.subject == ContractSubject(s.contract.contractId, s.contract.digest)
    ensures i > 0 ==>
              exists w <- t.reworks ::
                && t.decisions[i].body.subject == ReworkSubject(w.reworkId, w.digest)
                && w.digest == s.env.sealRework(w.(digest := "")) && w.additionalCapabilities.Some?
    ensures t.decisions[i].digest == s.env.seal(t.decisions[i].body)
  {
    hide AttemptsFit, LegalTrace, Accounted, CallsFit, Decided, R.Binds;
    assert DecidedAt(t.decisions, t.extras, i, s);
    assert t.decisions[i].body.subject == SubjectsOf(t.decisions)[i];
    SubjectIsAsking(s.contract, t.reworks, i);
    if i > 0 {
      var j :| 0 <= j < |t.reworks| && t.reworks[j].additionalCapabilities.Some?
               && Subjects(s.contract, t.reworks)[i] == ReworkSubject(t.reworks[j].reworkId, t.reworks[j].digest);
      assert ReworkBound(t.attempts, t.reworks, j, s);
    }
  }

  lemma {:induction false} SubjectIsAsking(contract: TaskContract, reworks: seq<R.ReworkContract>, i: nat)
    requires i < |Subjects(contract, reworks)|
    ensures i == 0 ==> Subjects(contract, reworks)[0] == ContractSubject(contract.contractId, contract.digest)
    ensures i > 0 ==>
              exists j :: 0 <= j < |reworks| && reworks[j].additionalCapabilities.Some?
                          && Subjects(contract, reworks)[i] == ReworkSubject(reworks[j].reworkId, reworks[j].digest)
  {
    if reworks != [] {
      var n := |reworks| - 1;
      SubjectsAreSome(contract, reworks[..n]);
      if i < |Subjects(contract, reworks[..n])| {
        SubjectIsAsking(contract, reworks[..n], i);
        if i > 0 {
          var j :| 0 <= j < n && reworks[..n][j].additionalCapabilities.Some?
                   && Subjects(contract, reworks[..n])[i]
                      == ReworkSubject(reworks[..n][j].reworkId, reworks[..n][j].digest);
          assert reworks[j] == reworks[..n][j];
        }
      } else {
        assert Subjects(contract, reworks)[i] == ReworkSubject(reworks[n].reworkId, reworks[n].digest);
      }
    }
  }

  lemma {:induction false} SubjectsAreSome(contract: TaskContract, reworks: seq<R.ReworkContract>)
    ensures |Subjects(contract, reworks)| >= 1
  {
    if reworks != [] {
      SubjectsAreSome(contract, reworks[..|reworks| - 1]);
    }
  }

  /** Two rework contracts in a row never name the same failed criteria. */
  lemma ReworksMakeProgress(t: Trace, s: Setting, i: nat)
    requires Recorded(t, s) && i < |t.reworks|
    ensures t.reworks[i].attemptNumber == i + 1
    ensures i > 0 ==> t.reworks[i].failedIds != t.reworks[i - 1].failedIds
    ensures IsScopeSubset(t.reworks[i].effectiveScope, s.contract.scope)
  {
    assert ReworkBound(t.attempts, t.reworks, i, s);
  }

  /** Everything an accepted attempt has going for it: its diff is the true one and
      is clean under the contract's scope and under the ceiling's, ceilings and
      exemptions included; the host checks changed nothing; every command criterion
      succeeded; every mandatory criterion is met; every PASS cites real evidence;
      and the verifier itself left nothing unverified, no grave security finding and
      no scope violation. */
  ghost predicate HostVouches(a: AttemptReport, contract: TaskContract, ceiling: ScopeRules) {
    var m := Manifests(Some(ByPath(a.frozen.baseline)), Some(ByPath(a.frozen.result)));
    && IsDiff(ByPath(a.frozen.baseline), ByPath(a.frozen.result), a.frozen.diff)
    && Clean(a.frozen.diff, contract.scope, m) && Clean(a.frozen.diff, ceiling, m)
    && SameContent(ByPath(a.frozen.result), ByPath(a.frozen.postTest))
    && (forall c <- contract.criteria :: CommandSucceeded(c, a.frozen))
    && (forall c <- contract.criteria :: c.mandatory ==> MetIn(a.result, c.id))
    && EvidenceExists(a.result, a.frozen)
    && (forall v <- a.result.criteria :: v.result != NotVerified)
    && (forall f <- a.result.securityFindings :: f.severity !in {Blocker, High})
    && a.result.scopeViolations == []
  }

  /** A mergeable Run: the host, not the model, vouches for the last attempt, no
      decision of the run was a denial, every one that required approval got the
      approver's yes, and the final approver said yes. */
  lemma MergeableMeans(t: Trace, s: Setting, run: Run)
    requires Recorded(t, s) && run.state in FinalStates(t, s) && run.state == ReadyForMerge
    ensures t.attempts != [] && s.env.finalApproval == Some(true)
    ensures HostVouches(t.attempts[|t.attempts| - 1], s.contract, s.ceiling.scope)
    ensures |t.decisions| == |t.extras| + 1
    ensures forall i :: 0 <= i < |t.decisions| ==> GateOpened(t.decisions[i], i, s.env)
  {
    hide HostVouches, ReportFits, DecidedAt, ReworkFits, Legal;
    var n := |t.attempts| - 1;
    assert AttemptFits(t.attempts, n, s);
    AcceptedMeans(t.attempts[n], s.contract, s.ceiling.scope, BaselineOf(t.attempts, FirstBaseline(s.env), n));
    if |t.reworks| == |t.attempts| {
      LastIsReworked(t, s);
    }
  }

  lemma LastIsReworked(t: Trace, s: Setting)
    requires Recorded(t, s) && t.attempts != [] && |t.reworks| == |t.attempts|
    ensures LastAccepted(t, Contracts.Rework)
  {
    assert ReworkBound(t.attempts, t.reworks, |t.attempts| - 1, s);
  }

  lemma AcceptedMeans(a: AttemptReport, contract: TaskContract, ceiling: ScopeRules, baseline: seq<ManifestEntry>)
    requires ReportFits(a, contract, baseline, IntersectScope(contract.scope, ceiling)) && a.accepted == Pass
    ensures HostVouches(a, contract, ceiling)
  {
    hide Clean, IsDiff, CommandSucceeded, MetIn, EvidenceExists;
    var m := Manifests(Some(ByPath(a.frozen.baseline)), Some(ByPath(a.frozen.result)));
    MeetIsSound(contract.scope, ceiling, a.frozen.diff, m);
    ChangesAreDifferences(ByPath(a.frozen.result), ByPath(a.frozen.postTest), a.frozen.sideEffectDiff);
  }

  /** What a verdict says it is about is never compared with anything: an answer that
      names another task, contract, snapshot or evidence set is treated alike, up to
      an accepted PASS. */
  lemma NamesAreNotCompared(a: AttemptReport, names: Names, contract: TaskContract, baseline: seq<ManifestEntry>,
                            scope: ScopeRules, ceiling: ScopeRules, n: nat)
    ensures var b := a.(result := a.result.(names := names));
            && (ReportFits(b, contract, baseline, scope) <==> ReportFits(a, contract, baseline, scope))
            && (HostVouches(b, contract, ceiling) <==> HostVouches(a, contract, ceiling))
            && (R.Reworkable(contract, b.result, n, None) <==> R.Reworkable(contract, a.result, n, None))
            && VerificationIds([b]) == VerificationIds([a])
  {
    hide ObservedAs, Clean, IsDiff, CommandSucceeded;
    var r, r' := a.result, a.result.(names := names);
    assert CriteriaById(r) == CriteriaById(r');
    assert forall id :: MetIn(r, id) <==> MetIn(r', id);
    assert R.FailedIds(r) == R.FailedIds(r');
  }

  function FrozenOf(attempts: seq<AttemptReport>): seq<Frozen> {
    seq(|attempts|, i requires 0 <= i < |attempts| => attempts[i].frozen)
  }

  /** The frozen results of a run are a series of attempts, each starting from what
      the one before it left. */
  lemma FrozenAttempts(t: Trace, s: Setting)
    requires AttemptsFit(t.attempts, s)
    ensures Evidence.Attempts(FrozenOf(t.attempts), GrantedScope(s))
    ensures t.attempts != [] ==> FrozenOf(t.attempts)[0].baseline == FirstBaseline(s.env)
  {
    hide FreezeFits;
    var frozen := FrozenOf(t.attempts);
    forall i | 0 <= i < |frozen|
      ensures AttemptAt(frozen, i, GrantedScope(s))
      ensures frozen[i].baseline == BaselineOf(t.attempts, FirstBaseline(s.env), i)
    {
      FrozenAttempt(t.attempts, s, i);
    }
  }

  lemma FrozenAttempt(attempts: seq<AttemptReport>, s: Setting, i: nat)
    requires i < |attempts| && AttemptFits(attempts, i, s)
    ensures AttemptAt(FrozenOf(attempts), i, GrantedScope(s))
    ensures FrozenOf(attempts)[i].baseline == BaselineOf(attempts, FirstBaseline(s.env), i)
  {
  }

  /** If every attempt was spotless, so is the whole change since the checkout. */
  lemma SpotlessRunStaysInScope(t: Trace, s: Setting, path: string)
    requires Recorded(t, s) && t.attempts != []
    requires forall a <- t.attempts :: Spotless(a.frozen)
    requires ContentAt(ByPath(FirstBaseline(s.env)), path)
             != ContentAt(ByPath(t.attempts[|t.attempts| - 1].frozen.postTest), path)
    ensures Permitted(s.contract.scope, path) && Permitted(s.ceiling.scope, path)
  {
    hide ReworksFit, DecisionsFit, Thrifty, Legal, ObservedAs, AttemptFits, Spotless, Permitted, ContentAt, ByPath;
    var frozen := FrozenOf(t.attempts);
    FrozenAttempts(t, s);
    forall f <- frozen ensures Spotless(f) {
      var i :| 0 <= i < |frozen| && frozen[i] == f;
      assert t.attempts[i] in t.attempts;
    }
    SpotlessAttemptsStayInScope(frozen, s.contract.scope, s.ceiling.scope, path);
  }

  /** A mergeable Run whose earlier attempts need not have been spotless: the whole
      change stays in both scopes if and only if what had changed before the last
      attempt does. */
  lemma MergedRunStaysInScopeExactly(t: Trace, s: Setting, run: Run)
    requires Recorded(t, s) && run.state in FinalStates(t, s) && run.state == ReadyForMerge
    ensures t.attempts != []
    ensures var n, first := |t.attempts| - 1, FirstBaseline(s.env);
            StaysIn(first, t.attempts[n].frozen.postTest, s.contract.scope, s.ceiling.scope)
            <==> StaysIn(first, BaselineOf(t.attempts, first, n), s.contract.scope, s.ceiling.scope)
  {
    hide ReworksFit, DecisionsFit, Thrifty, Legal, StaysIn, ReportFits, FailureExplained;
    var n := |t.attempts| - 1;
    FrozenAttempts(t, s);
    assert AttemptFits(t.attempts, n, s);
    FrozenAttempt(t.attempts, s, n);
    AcceptedIsSpotless(t.attempts[n], s, BaselineOf(t.attempts, FirstBaseline(s.env), n));
    LastSpotlessIsEnoughExactly(FrozenOf(t.attempts), s.contract.scope, s.ceiling.scope);
  }

  lemma AcceptedIsSpotless(a: AttemptReport, s: Setting, baseline: seq<ManifestEntry>)
    requires ReportFits(a, s.contract, baseline, GrantedScope(s)) && a.accepted == Pass
    ensures Spotless(a.frozen)
  {
  }

  /* ---- A run that is merged with a forbidden file --------------------------------------------------------------- */

  const NOTHING_ALLOWED := ScopeRules({}, {}, true, None, None, {})

  const ONE_REWORK := TaskContract(
    "contract", "digest", NOTHING_ALLOWED, [AcceptanceCriterion("c", true, VerificationSpec(Assertion, "", []))],
    Capabilities(NoAccess, {}, false, {}, false, {}, {}, {}), Budget(1, 0, 1))

  const NO_CAPABILITIES := Ceiling(NOTHING_ALLOWED, {}, false, {}, false, {}, {}, {}, Budget(1, 0, 1))

  const SECRET: seq<ManifestEntry> := [ManifestEntry("secret", RegularFile, 0, 1, Some("digest"), None)]

  /** The first verdict asks for a rework, every later one passes. */
  function FirstFails(i: nat): VerificationResult {
    if i == 0 then
      VerificationResult(Tally(i), Names("", "", "", ""), Contracts.Rework,
                         [CriterionVerification("c", FailedCriterion, [], "")], [], [], [], ["fix"], [], [])
    else
      VerificationResult(Tally(i), Names("", "", "", ""), Pass,
                         [CriterionVerification("c", Passed, ["e"], "")], [], [], [], [], [], [])
  }

  /** The worker of the first attempt adds the file, and nobody takes it away. */
  function CarelessEnvironment(): Environment {
    var none: set<string> := {};
    var seen := Observed(SECRET, SECRET, [Execution("check", Some(0), false, false, ["e"])]);
    Environment(
      true, (i: nat) => Moment(0, Actors.Ids(Tally(i), Tally(i)), [], false, 9),
      PlannerAnswered(None, Proposed(ONE_REWORK)), WorktreeReady([]),
      (i: nat) => Some(true), (i: nat) => WorkerAnswered(None, None), (i: nat) => Some(seen),
      (i: nat) => VerifierAnswered(None, FirstFails(i)),
      Some(true), Tally, Tally, (table: Table, n: nat) => none, (table: Table, n: nat) => false,
      (b: DecisionBody) => "", (w: R.ReworkContract) => "")
  }

  lemma CarelessIsCalm(run: Run)
    ensures Calm(CarelessEnvironment(), run, Origin(EMPTY_DB.(runs := map[run.runId := run]), {}))
  {
    var env := CarelessEnvironment();
    forall i: nat, j: nat | i < j ensures Tally(i) != Tally(j) {
      assert |Tally(i)| != |Tally(j)|;
    }
    forall i: nat ensures Usable(env.verifier(i)) {
      var r := env.verifier(i).result;
      assert r.criteria[0] in r.criteria;
      assert i == 0 ==> "c" in R.FailedIds(r) && |r.requiredFixes[0]| == 3;
    }
    assert FreshMoments(env, EMPTY_DB.(runs := map[run.runId := run]));
    assert FreshDraws(env, {}) && FreshAnswers(env, {}) && NothingRaises(env);
  }

  lemma {:induction false} NothingReported(planner: nat, worker: nat, verifier: nat)
    ensures TurnsReported(CarelessEnvironment(), planner, worker, verifier) == 0
  {
    if worker > 0 {
      NothingReported(planner, worker - 1, verifier);
    } else if verifier > 0 {
      NothingReported(planner, worker, verifier - 1);
    }
  }

  /** Reached with a Run: what `RunTaskPipeline` says of a trace that ends in one. */
  ghost predicate EndsIn(t: Trace, run: Run, ceiling: Ceiling, env: Environment) {
    && RunRecorded(t, ceiling, env)
    && match t.contract
       case Some(c) => run.state in FinalStates(t, Setting(c, ceiling, env))
       case None => run.state == Failed && Unplanned(t, ceiling, env)
  }

  const CARELESS: Setting := Setting(ONE_REWORK, NO_CAPABILITIES, CarelessEnvironment())

  lemma CarelessIsNotBroken(t: Trace)
    requires t.start.budgetUsed == BudgetUsage(0, 0, 0)
    ensures !Broken(t, NO_CAPABILITIES.budget, CarelessEnvironment()) && !Unprepared(t, CarelessEnvironment())
    ensures t.contract.None? ==> !Unplanned(t, NO_CAPABILITIES, CarelessEnvironment())
  {
    NothingReported(t.plannerCalls, t.workerCalls, t.verifierCalls);
    NothingReported(0, 0, 0);
  }

  /** The run gets past planning and policy. */
  lemma CarelessIsRecorded(t: Trace, run: Run)
    requires t.start.budgetUsed == BudgetUsage(0, 0, 0) && EndsIn(t, run, NO_CAPABILITIES, CarelessEnvironment())
    ensures Recorded(t, CARELESS) && run.state in FinalStates(t, CARELESS)
  {
    hide Recorded, Thrifty, LegalTrace, Broken, Unprepared;
    if t.contract.Some? && t.decisions == [] {
      CarelessIsNotBroken(t);
    }
  }

  lemma {:induction false} NothingExtra(t: Trace, reworks: seq<R.ReworkContract>)
    requires forall w <- reworks :: w.additionalCapabilities == None
    ensures ExtrasOf(reworks) == []
  {
    if reworks != [] {
      var n := |reworks| - 1;
      assert reworks[n] in reworks && forall w <- reworks[..n] :: w in reworks;
      NothingExtra(t, reworks[..n]);
    }
  }

  lemma CarelessIsAllowed(t: Trace)
    requires Recorded(t, CARELESS)
    ensures !GateRefused(t, CARELESS.env)
  {
    hide AttemptsFit, Thrifty, LegalTrace, R.Binds, OpenedUpTo;
    forall w <- t.reworks ensures w.additionalCapabilities == None {
      var i :| 0 <= i < |t.reworks| && t.reworks[i] == w;
      assert ReworkBound(t.attempts, t.reworks, i, CARELESS);
    }
    NothingExtra(t, t.reworks);
    assert DecidedAt(t.decisions, t.extras, 0, CARELESS);
  }

  /** What the last attempt of the run can be. */
  lemma CarelessAttempt(t: Trace, i: nat)
    requires Recorded(t, CARELESS) && i < |t.attempts|
    ensures t.attempts[i].accepted == (if i == 0 then Contracts.Rework else Pass)
    ensures t.attempts[i].frozen.postTest == SECRET && (i > 0 ==> Spotless(t.attempts[i].frozen))
  {
    hide ReworksFit, DecisionsFit, Thrifty, LegalTrace;
    assert AttemptFits(t.attempts, i, CARELESS);
    if i > 0 {
      assert AttemptFits(t.attempts, i - 1, CARELESS);
      CarelessPass(t.attempts[i], i);
    }
  }

  lemma CarelessPass(a: AttemptReport, i: nat)
    requires i > 0 && a.result == FirstFails(i) && ReportFits(a, ONE_REWORK, SECRET, GrantedScope(CARELESS))
    requires CARELESS.env.observed(i) == Some(SeenIn(a.frozen))
    ensures a.accepted == Pass && Spotless(a.frozen)
  {
    hide PassInvariant, ByPath, FreezeFits;
    CarelessIsSpotless(a.frozen);
    CarelessAnswerHolds(i);
  }

  lemma CarelessIsSpotless(f: Frozen)
    requires ObservedAs(f, SECRET, GrantedScope(CARELESS)) && Some(SeenIn(f)) == CARELESS.env.observed(0)
    ensures Spotless(f) && f.evidenceIds == ["e"]
  {
    hide ByPath, IsDiff, Permitted, MatchesAny;
    NothingChanged(f.diff, ByPath(SECRET));
    NothingChanged(f.sideEffectDiff, ByPath(SECRET));
    assert f.executions[..0] == [] && |f.executions| == 1;
    assert EvidenceOf(f.executions) == EvidenceOf([]) + ["e"];
    NothingIsClean(f.diff, GrantedScope(CARELESS), Manifests(Some(ByPath(f.baseline)), Some(ByPath(f.result))));
  }

  lemma NothingIsClean(d: ManifestDiff, scope: ScopeRules, m: Manifests)
    requires ChangedPaths(d) == [] && d.added == [] && scope.maxChangedFiles.None? && scope.maxChangedBytes.None?
    ensures Clean(d, scope, m)
  {
  }

  lemma CarelessAnswerHolds(i: nat)
    requires i > 0
    ensures PassInvariant(ONE_REWORK, FirstFails(i))
  {
    var r := FirstFails(i);
    assert MandatoryIds(ONE_REWORK) == {"c"} by {
      assert ONE_REWORK.criteria[0] in ONE_REWORK.criteria;
    }
    DictKeepsLast(r.criteria, (c: CriterionVerification) => c.id, 0);
  }

  lemma NothingChanged(d: ManifestDiff, tree: Tree)
    requires IsDiff(tree, tree, d)
    ensures ChangedPaths(d) == [] && d.added == []
  {
    SomeListed(d.added);
    SomeListed(d.modified);
    SomeListed(d.deleted);
  }

  lemma SomeListed(paths: seq<string>)
    ensures paths == [] || exists p :: p in paths
  {
    if paths != [] {
      assert paths[0] in paths;
    }
  }

  /** The environment leaves the run no other end than to be merged. */
  lemma CarelessMerges(t: Trace, run: Run)
    requires t.start.budgetUsed == BudgetUsage(0, 0, 0) && EndsIn(t, run, NO_CAPABILITIES, CarelessEnvironment())
    ensures Recorded(t, CARELESS) && run.state == ReadyForMerge && run.state in FinalStates(t, CARELESS)
    ensures |t.attempts| == 2
  {
    CarelessIsRecorded(t, run);
    CarelessIsAllowed(t);
    CarelessIsNotBroken(t);
    RunIsBounded(t, CARELESS);
    hide Recorded, Broken, Unprepared, GateRefused;
    CarelessLast(t);
  }

  lemma CarelessLast(t: Trace)
    requires Recorded(t, CARELESS)
    ensures !LastAccepted(t, Reject) && !LastAccepted(t, ManualReview)
    ensures !(LastAccepted(t, Contracts.Rework) && OutOfRework(t, CARELESS))
    ensures LastAccepted(t, Pass) ==> |t.attempts| > 1
  {
    hide AttemptsFit, ReworksFit, DecisionsFit, Thrifty, LegalTrace;
    if t.attempts != [] {
      CarelessAttempt(t, |t.attempts| - 1);
    }
  }

  /** The last attempt of this run is spotless, as that of every mergeable run, and
      yet a file that the contract forbids has come in since the checkout and stays. */
  method MergeDespiteForbiddenFile(hash: Hasher) returns (run: Run, trace: Trace)
    ensures Recorded(trace, CARELESS) && run.state in FinalStates(trace, CARELESS) && run.state == ReadyForMerge
    ensures |trace.attempts| == 2 && Spotless(trace.attempts[1].frozen)
    ensures ContentAt(ByPath(FirstBaseline(CARELESS.env)), "secret")
            != ContentAt(ByPath(trace.attempts[1].frozen.postTest), "secret")
    ensures !Permitted(CARELESS.contract.scope, "secret")
  {
    hide Recorded, RunRecorded, Calm, FinalStates, Unplanned, Consistent, Interrupted, Audited, AllNew, StatesSince;
    var db := new Database(hash);
    var start := Run("run", "repository", Created, 0, BudgetUsage(0, 0, 0), None, 0, 0);
    var inserted := db.InsertRun(start);
    CarelessIsCalm(start);
    var r;
    r, trace := RunTaskPipeline(db, start, NO_CAPABILITIES, CarelessEnvironment());
    run := r.value;
    CarelessMerges(trace, run);
    CarelessAttempt(trace, 1);
    SecretCameIn();
  }

  lemma SecretCameIn()
    ensures ContentAt(ByPath([]), "secret") != ContentAt(ByPath(SECRET), "secret")
    ensures !Permitted(NOTHING_ALLOWED, "secret")
  {
    assert ByPath(SECRET) == map["secret" := SECRET[0]] by {
      assert SECRET[..0] == [];
    }
  }

  /** Over a run the decisions never get milder and the grants in force only grow,
      within the ceiling and clear of the hard-denied domains. */
  lemma GrantsOverTheRun(t: Trace, s: Setting, i: nat, j: nat)
    requires Recorded(t, s) && i <= j < |t.decisions|
    ensures var di, dj := t.decisions[i].body, t.decisions[j].body;
            && Policy.Severity(di.outcome) <= Policy.Severity(dj.outcome)
            && (dj.outcome != Deny ==>
                  && di.grants.commands <= dj.grants.commands && di.grants.domains <= dj.grants.domains
                  && di.grants.mcpTools <= dj.grants.mcpTools && di.grants.external <= dj.grants.external
                  && di.grants.pathRules == dj.grants.pathRules)
            && dj.grants.domains !! HARD_DENIED_DOMAINS && dj.grants.commands <= s.ceiling.commands
            && (i < j ==> di.outcome != Deny)
  {
    assert DecidedAt(t.decisions, t.extras, i, s) && DecidedAt(t.decisions, t.extras, j, s);
    GrantsOnlyGrow(s.contract.capabilities, t.extras, i, j, s.contract.scope, s.ceiling,
                   t.decisions[i].body, t.decisions[j].body);
  }
}
