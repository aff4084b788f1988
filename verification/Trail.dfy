/** What the pipeline leaves behind: the environment it runs in, the record of what
    it has done, what the tables show of it, the ways it can end without a Run, and
    the two things it does to the database: requesting a transition (`_advance`,
    `_fail`) and storing a row of the audit trail. */
module Trail {
  import opened Wrappers
  import opened Lifecycle
  import opened Journal
  import opened Database
  import opened Manifest
  import opened Scope
  import opened Policy
  import opened Contracts
  import opened Evidence
  import opened Verification
  import R = Rework
  import Actors

  /* ---- The environment ------------------------------------------------------------------ */

  /** What surrounds one requested transition: the clock, the identifiers drawn,
      what other processes do first, whether one of them holds the database for too
      long, and whether this one dies (9 or more: no). */
  datatype Moment = Moment(now: Time, ids: Actors.Ids, others: Actors.Interference, locked: bool, crashAt: nat)

  /** `Malformed` is output that is no TaskContract. */
  datatype PlannerOutput = NoOutput | Malformed | Proposed(contract: TaskContract)

  datatype PlannerAnswer =
    | PlannerTimedOut | PlannerRaised
    | PlannerAnswered(usage: Option<R.UsageRecord>, output: PlannerOutput)

  /** A worker's report counts for its usage and its request for more capabilities. */
  datatype WorkerAnswer =
    | WorkerTimedOut | WorkerRaised
    | WorkerAnswered(usage: Option<R.UsageRecord>, additional: Option<Capabilities>)

  /** `VerifierUnusable` covers a timeout and a failed protocol; output that is no
      VerificationResult raises instead. */
  datatype VerifierAnswer =
    | VerifierUnusable | VerifierRaised
    | VerifierAnswered(usage: Option<R.UsageRecord>, result: VerificationResult)

  datatype WorktreeAnswer = WorktreeFailed | BaselineRaised | WorktreeReady(baseline: seq<ManifestEntry>)

  /** Answers are indexed by how often the question has been asked; None is an
      exception the pipeline does not catch. `elsewhere` is what other processes
      store in an audit table before the pipeline's next row there, and `busy`
      whether one of them holds the database for too long then. */
  datatype Environment = Environment(
    repositoryResolved: bool, moment: nat -> Moment, planner: PlannerAnswer, worktree: WorktreeAnswer,
    approval: nat -> Option<bool>, worker: nat -> WorkerAnswer, observed: nat -> Option<Observed>,
    verifier: nat -> VerifierAnswer, finalApproval: Option<bool>,
    decisionId: nat -> string, reworkId: nat -> string, elsewhere: (Table, nat) -> set<string>,
    busy: (Table, nat) -> bool, seal: Sealer, sealRework: R.ReworkSealer)

  /** How the pipeline ends without returning a Run: a refused transition, a row
      an audit table refuses or has no time for, an exception from elsewhere, or the
      death of the process. */
  datatype Ending = Raised(error: ApplyError) | Duplicate(table: Table) | Busy(table: Table) | Aborted | Died

  /* ---- The record of a run ---------------------------------------------------------------- */

  datatype AttemptReport = AttemptReport(frozen: Frozen, result: VerificationResult, accepted: Verdict)

  /** The tables the pipeline found. */
  datatype Origin = Origin(tables: Db, audit: set<Key>)

  /** What a failure record of the pipeline names. */
  datatype Failing = Failing(stage: Stage, code: FailureCode)

  /** What has happened so far; `committed` lists the transitions that were
      acknowledged, and `used` is the budget with the usage booked. */
  datatype Trace = Trace(
    origin: Origin, start: Run, contract: Option<TaskContract>, committed: seq<State>,
    decisions: seq<Decision>, extras: seq<Capabilities>,
    attempts: seq<AttemptReport>, reworks: seq<R.ReworkContract>,
    plannerCalls: nat, workerCalls: nat, verifierCalls: nat,
    used: BudgetUsage, failure: Option<Failing>)

  function NewTrace(origin: Origin, run: Run): Trace {
    Trace(origin, run, None, [], [], [], [], [], 0, 0, 0, run.budgetUsed, None)
  }

  /** Usage is booked when it is reported, and never as a rework. */
  function Booked(used: BudgetUsage, usage: Option<R.UsageRecord>): BudgetUsage {
    if usage.None? then used else R.AccumulateUsage(used, usage.value, false)
  }

  /** What an answer reports, if it is one that the pipeline books. */
  function PlannerUsage(a: PlannerAnswer): Option<R.UsageRecord> {
    if a.PlannerAnswered? then a.usage else None
  }

  function WorkerUsage(a: WorkerAnswer): Option<R.UsageRecord> {
    if a.WorkerAnswered? then a.usage else None
  }

  function VerifierUsage(a: VerifierAnswer): Option<R.UsageRecord> {
    if a.VerifierAnswered? && WellFormed(a.result) then a.usage else None
  }

  function TurnsOf(usage: Option<R.UsageRecord>): nat {
    if usage.Some? && usage.value.turns.Some? then usage.value.turns.value else 0
  }

  function TokensOf(usage: Option<R.UsageRecord>): nat {
    if usage.None? then 0
    else
      (if usage.value.inputTokens.Some? then usage.value.inputTokens.value else 0)
      + if usage.value.outputTokens.Some? then usage.value.outputTokens.value else 0
  }

  /** The turns reported in so many answers of planner, worker and verifier. */
  function TurnsReported(env: Environment, planner: nat, worker: nat, verifier: nat): nat {
    if worker > 0 then TurnsReported(env, planner, worker - 1, verifier) + TurnsOf(WorkerUsage(env.worker(worker - 1)))
    else if verifier > 0 then
      TurnsReported(env, planner, worker, verifier - 1) + TurnsOf(VerifierUsage(env.verifier(verifier - 1)))
    else if planner > 0 then TurnsOf(PlannerUsage(env.planner)) else 0
  }

  function TokensReported(env: Environment, planner: nat, worker: nat, verifier: nat): nat {
    if worker > 0 then
      TokensReported(env, planner, worker - 1, verifier) + TokensOf(WorkerUsage(env.worker(worker - 1)))
    else if verifier > 0 then
      TokensReported(env, planner, worker, verifier - 1) + TokensOf(VerifierUsage(env.verifier(verifier - 1)))
    else if planner > 0 then TokensOf(PlannerUsage(env.planner)) else 0
  }

  lemma {:induction false} VerifierReports(env: Environment, planner: nat, worker: nat, verifier: nat)
    ensures TurnsReported(env, planner, worker, verifier + 1)
            == TurnsReported(env, planner, worker, verifier) + TurnsOf(VerifierUsage(env.verifier(verifier)))
    ensures TokensReported(env, planner, worker, verifier + 1)
            == TokensReported(env, planner, worker, verifier) + TokensOf(VerifierUsage(env.verifier(verifier)))
  {
    if worker > 0 {
      VerifierReports(env, planner, worker - 1, verifier);
    }
  }

  /** What is used is what was used and every turn and token reported since. */
  ghost predicate Accounted(start: BudgetUsage, used: BudgetUsage, env: Environment, planner: nat, worker: nat,
                            verifier: nat) {
    && used.turnsUsed == start.turnsUsed + TurnsReported(env, planner, worker, verifier)
    && used.tokensUsed == start.tokensUsed + TokensReported(env, planner, worker, verifier)
    && used.reworkUsed == start.reworkUsed
  }

  /** With the turns reported in so many answers, the Run is over its budget. */
  predicate OverBudget(start: BudgetUsage, budget: Budget, env: Environment, planner: nat, worker: nat, verifier: nat) {
    || start.turnsUsed + TurnsReported(env, planner, worker, verifier) > budget.maxTurns
    || start.reworkUsed > budget.maxReworkIterations
  }

  /** No call was made over budget, counting all that was reported before it: worker
      and verifier take turns, after the planner. */
  ghost predicate CallsFit(start: BudgetUsage, budget: Budget, env: Environment, planner: nat, worker: nat,
                           verifier: nat) {
    && (planner > 0 ==> !OverBudget(start, budget, env, 0, 0, 0))
    && (forall k: nat :: k < worker ==> !OverBudget(start, budget, env, planner, k, k))
    && (forall k: nat, n: nat :: k < verifier && n == k + 1 ==> !OverBudget(start, budget, env, planner, n, k))
  }

  /** Every call was made within the budget, and what was reported is booked. */
  ghost predicate Thrifty(t: Trace, budget: Budget, env: Environment) {
    && Accounted(t.start.budgetUsed, t.used, env, t.plannerCalls, t.workerCalls, t.verifierCalls)
    && CallsFit(t.start.budgetUsed, budget, env, t.plannerCalls, t.workerCalls, t.verifierCalls)
  }

  lemma BudgetIsChecked(start: BudgetUsage, used: BudgetUsage, budget: Budget, env: Environment, planner: nat,
                        worker: nat, verifier: nat)
    requires Accounted(start, used, env, planner, worker, verifier)
    ensures R.WithinBudget(used, budget) <==> !OverBudget(start, budget, env, planner, worker, verifier)
  {
  }

  lemma PlannerBooked(start: BudgetUsage, budget: Budget, env: Environment)
    requires R.WithinBudget(start, budget)
    ensures Accounted(start, Booked(start, PlannerUsage(env.planner)), env, 1, 0, 0)
    ensures CallsFit(start, budget, env, 1, 0, 0)
  {
  }

  lemma WorkerBooked(start: BudgetUsage, used: BudgetUsage, budget: Budget, env: Environment, planner: nat, n: nat)
    requires Accounted(start, used, env, planner, n, n) && CallsFit(start, budget, env, planner, n, n)
    requires R.WithinBudget(used, budget)
    ensures Accounted(start, Booked(used, WorkerUsage(env.worker(n))), env, planner, n + 1, n)
    ensures CallsFit(start, budget, env, planner, n + 1, n)
  {
    hide WorkerUsage;
    BudgetIsChecked(start, used, budget, env, planner, n, n);
  }

  lemma VerifierBooked(start: BudgetUsage, used: BudgetUsage, budget: Budget, env: Environment, planner: nat, n: nat)
    requires Accounted(start, used, env, planner, n + 1, n) && CallsFit(start, budget, env, planner, n + 1, n)
    requires R.WithinBudget(used, budget)
    ensures Accounted(start, Booked(used, VerifierUsage(env.verifier(n))), env, planner, n + 1, n + 1)
    ensures CallsFit(start, budget, env, planner, n + 1, n + 1)
  {
    hide VerifierUsage;
    BudgetIsChecked(start, used, budget, env, planner, n + 1, n);
    VerifierReports(env, planner, n + 1, n);
  }

  function StateAfter(t: Trace): State {
    if t.committed == [] then t.start.state else t.committed[|t.committed| - 1]
  }

  /** The history the trace claims is one the lifecycle table allows. */
  ghost predicate LegalTrace(t: Trace) {
    Legal([t.start.state] + t.committed)
  }

  /** `run` is where the trace has led. */
  ghost predicate At(t: Trace, run: Run) {
    && LegalTrace(t)
    && run.runId == t.start.runId && run.state == StateAfter(t)
    && run.stateVersion == t.start.stateVersion + |t.committed|
  }

  function Step(t: Trace, s: State): Trace {
    t.(committed := t.committed + [s])
  }

  lemma StepIsLegal(t: Trace, run: Run, s: State)
    requires At(t, run) && CanTransition(run.state, s)
    ensures LegalTrace(Step(t, s)) && StateAfter(Step(t, s)) == s
  {
    var h, h' := [t.start.state] + t.committed, [t.start.state] + Step(t, s).committed;
    forall i, j | 0 <= i < j < |h'| && j == i + 1 ensures CanTransition(h'[i], h'[j]) {
      if j < |h| {
        assert h'[i] == h[i] && h'[j] == h[j];
      }
    }
  }

  /* ---- The rows of the audit trail -------------------------------------------------------- */

  /** The keys of the rows a run has stored, or last tried to, table by table. */
  datatype Ids = Ids(contracts: seq<string>, decisions: seq<string>, verifications: seq<string>, reworks: seq<string>) {
    function In(table: Table): seq<string> {
      match table
      case ContractTable => contracts
      case DecisionTable => decisions
      case VerificationTable => verifications
      case ReworkTable => reworks
    }

    function With(table: Table, id: string): (longer: Ids)
      ensures forall other ::
                longer.In(other) == if other == table then this.In(other) + [id] else this.In(other)
    {
      match table
      case ContractTable => this.(contracts := contracts + [id])
      case DecisionTable => this.(decisions := decisions + [id])
      case VerificationTable => this.(verifications := verifications + [id])
      case ReworkTable => this.(reworks := reworks + [id])
    }

    /** Without the last row of a table. */
    function Without(table: Table): Ids
      requires In(table) != []
    {
      var shorter := In(table)[..|In(table)| - 1];
      match table
      case ContractTable => this.(contracts := shorter)
      case DecisionTable => this.(decisions := shorter)
      case VerificationTable => this.(verifications := shorter)
      case ReworkTable => this.(reworks := shorter)
    }

    lemma WithoutLast(table: Table, id: string)
      ensures With(table, id).Without(table) == this
    {
      assert In(table) + [id] != [] && (In(table) + [id])[..|In(table)|] == In(table);
    }
  }

  /** The planner names the contract and the verifier its results; the pipeline
      draws the ids of decisions and rework contracts. */
  function IdsOf(t: Trace): Ids {
    IdsFrom(t.contract, t.decisions, t.attempts, t.reworks)
  }

  function IdsFrom(contract: Option<TaskContract>, decisions: seq<Decision>, attempts: seq<AttemptReport>,
                   reworks: seq<R.ReworkContract>): Ids {
    Ids(if contract.None? then [] else [contract.value.contractId],
        DecisionIds(decisions), VerificationIds(attempts), ReworkIds(reworks))
  }

  function DecisionIds(decisions: seq<Decision>): seq<string> {
    seq(|decisions|, i requires 0 <= i < |decisions| => decisions[i].body.decisionId)
  }

  function VerificationIds(attempts: seq<AttemptReport>): seq<string> {
    seq(|attempts|, i requires 0 <= i < |attempts| => attempts[i].result.verificationId)
  }

  function ReworkIds(reworks: seq<R.ReworkContract>): seq<string> {
    seq(|reworks|, i requires 0 <= i < |reworks| => reworks[i].reworkId)
  }

  lemma ContractIsARow(t: Trace, c: TaskContract)
    requires t.contract.None?
    ensures IdsOf(t.(contract := Some(c))) == IdsOf(t).With(ContractTable, c.contractId)
  {
  }

  lemma DecisionIsARow(t: Trace, d: Decision)
    ensures IdsOf(t.(decisions := t.decisions + [d])) == IdsOf(t).With(DecisionTable, d.body.decisionId)
  {
    assert DecisionIds(t.decisions + [d]) == DecisionIds(t.decisions) + [d.body.decisionId];
  }

  lemma ReportIsARow(t: Trace, a: AttemptReport)
    ensures IdsOf(t.(attempts := t.attempts + [a])) == IdsOf(t).With(VerificationTable, a.result.verificationId)
  {
    assert VerificationIds(t.attempts + [a]) == VerificationIds(t.attempts) + [a.result.verificationId];
  }

  lemma ReworkIsARow(t: Trace, w: R.ReworkContract)
    ensures IdsOf(t.(reworks := t.reworks + [w])) == IdsOf(t).With(ReworkTable, w.reworkId)
  {
    assert ReworkIds(t.reworks + [w]) == ReworkIds(t.reworks) + [w.reworkId];
  }

  /** What others have stored in a table by the time of the pipeline's `n`-th row. */
  function Others(env: Environment, table: Table, n: nat): set<string> {
    if n == 0 then {} else Others(env, table, n - 1) + env.elsewhere(table, n - 1)
  }

  /** The tables hold what they held, what others have stored, and the rows of
      the run. */
  ghost predicate Audited(audit: set<Key>, found: set<Key>, env: Environment, ids: Ids) {
    forall table, id ::
      Key(table, id) in audit
      <==> Key(table, id) in found || id in Others(env, table, |ids.In(table)|) || id in ids.In(table)
  }

  /** Row `i` of a table is stored under a key that is not in use. */
  predicate NewAt(found: set<Key>, env: Environment, table: Table, ids: seq<string>, i: nat)
    requires i < |ids|
  {
    Key(table, ids[i]) !in found && ids[i] !in Others(env, table, i + 1) && ids[i] !in ids[..i]
  }

  ghost predicate AllNew(found: set<Key>, env: Environment, ids: Ids) {
    forall table, i :: 0 <= i < |ids.In(table)| ==> NewAt(found, env, table, ids.In(table), i)
  }

  lemma NewRowFits(before: set<Key>, after: set<Key>, found: set<Key>, env: Environment, ids: Ids, table: Table,
                   id: string)
    requires Audited(before, found, env, ids)
    requires forall k :: k in after <==>
               k in before || (k.table == table && (k.id == id || k.id in env.elsewhere(table, |ids.In(table)|)))
    ensures Audited(after, found, env, ids.With(table, id))
  {
    var longer := ids.With(table, id);
    forall other, x
      ensures Key(other, x) in after
              <==> Key(other, x) in found || x in Others(env, other, |longer.In(other)|) || x in longer.In(other)
    {
      assert Key(other, x) in before
        <==> Key(other, x) in found || x in Others(env, other, |ids.In(other)|) || x in ids.In(other);
    }
  }

  lemma NewRowIsNew(between: set<Key>, before: set<Key>, found: set<Key>, env: Environment, ids: Ids, table: Table,
                    id: string)
    requires Audited(before, found, env, ids) && AllNew(found, env, ids)
    requires forall k :: k in between <==>
               k in before || (k.table == table && k.id in env.elsewhere(table, |ids.In(table)|))
    ensures var n, longer := |ids.In(table)|, ids.With(table, id);
            && (Key(table, id) !in between <==> NewAt(found, env, table, longer.In(table), n))
            && (Key(table, id) !in between <==> AllNew(found, env, longer))
  {
    hide Audited;
    var n, longer := |ids.In(table)|, ids.With(table, id);
    var row := longer.In(table);
    assert row[..n] == ids.In(table) && row[n] == id;
    KeyIsFree(before, found, env, ids, table, id);
    assert Key(table, id) !in between <==> NewAt(found, env, table, row, n);
    if Key(table, id) !in between {
      forall other, i | 0 <= i < |longer.In(other)| ensures NewAt(found, env, other, longer.In(other), i) {
        if other != table || i < n {
          assert NewAt(found, env, other, ids.In(other), i);
          StillNew(found, env, other, ids.In(other), longer.In(other), i);
        }
      }
    }
  }

  lemma StillNew(found: set<Key>, env: Environment, table: Table, ids: seq<string>, longer: seq<string>, i: nat)
    requires i < |ids| && ids <= longer && NewAt(found, env, table, ids, i)
    ensures NewAt(found, env, table, longer, i)
  {
    hide Others;
    assert longer[..i] == ids[..i];
  }

  lemma KeyIsFree(audit: set<Key>, found: set<Key>, env: Environment, ids: Ids, table: Table, id: string)
    requires Audited(audit, found, env, ids)
    ensures Key(table, id) in audit
            <==> Key(table, id) in found || id in Others(env, table, |ids.In(table)|) || id in ids.In(table)
  {
  }

  /* ---- What the tables show of a run ---------------------------------------------------------- */

  /** What a waiting state waits for; a Run of the pipeline waits for nothing else. */
  predicate RightKind(target: State, pending: Option<PendingKind>) {
    && (target == AwaitingApproval ==> pending == Some(ApprovalPending))
    && (target == AwaitingManualReview ==> pending == Some(ManualReviewPending))
    && (target == AwaitingFinalApproval ==> pending == Some(FinalApprovalPending))
    && (target !in {AwaitingApproval, AwaitingManualReview, AwaitingFinalApproval} ==> pending == None)
  }

  /** The row of a transition: the harness asked for it, then and under its own name,
      and it says what is pending now or which failure record was written. */
  predicate RowAsAsked(row: Entry, id: string, target: State, when: Moment) {
    var b := row.body;
    && b.runId == id && b.stateAfter == target && b.timestamp == when.now && b.entryId == when.ids.entryId
    && b.actor == Harness("orchestrator") && b.correlationId == "run-" + id
    && RightKind(target, if b.pending.Some? then Some(b.pending.value.kind) else None)
    && (b.pending.Some? ==> b.pending.value.requestedAt == when.now)
    && b.failureId == if target == Failed then Some(when.ids.failureId) else None
  }

  /** The failure record of a failed Run, as its last transition wrote it. */
  predicate FailureStored(failures: map<string, FailureRecord>, id: string, committed: seq<State>,
                          failure: Option<Failing>, env: Environment) {
    && (failure.Some? <==> committed != [] && committed[|committed| - 1] == Failed)
    && (failure.Some? ==>
          var when := env.moment(|committed| - 1);
          && when.ids.failureId in failures
          && failures[when.ids.failureId]
             == FailureRecord(when.ids.failureId, id, failure.value.stage, failure.value.code, false, "", when.now))
  }

  /** The journal has a row for each transition of the trace, one after the other. */
  ghost predicate Tied(journal: seq<Entry>, initial: map<string, Run>, start: Run, committed: seq<State>,
                       env: Environment) {
    committed != [] ==>
      && start.runId in initial
      && var rows := RowsOf(journal, start.runId);
      && var k := start.stateVersion - initial[start.runId].stateVersion;
      && 0 <= k && k + |committed| <= |rows|
      && forall i :: 0 <= i < |committed| ==> RowAsAsked(rows[k + i], start.runId, committed[i], env.moment(i))
  }

  lemma TiedLater(journal: seq<Entry>, later: seq<Entry>, initial: map<string, Run>, start: Run, committed: seq<State>,
                  env: Environment)
    requires Tied(journal, initial, start, committed, env)
    requires RowsOf(journal, start.runId) <= RowsOf(later, start.runId)
    ensures Tied(later, initial, start, committed, env)
  {
    hide RowsOf, RowAsAsked;
  }

  lemma TiedStep(journal: seq<Entry>, db: Db, initial: map<string, Run>, start: Run, committed: seq<State>, run: Run,
                 target: State, env: Environment)
    requires Tied(journal, initial, start, committed, env)
    requires RowsOf(journal, start.runId) <= RowsOf(db.journal, start.runId)
    requires run.runId == start.runId && run.stateVersion == start.stateVersion + |committed|
    requires Actors.LastRowIs(db, initial, run, target)
    requires LastRowAsAsked(db, run.runId, target, env.moment(|committed|))
    ensures Tied(db.journal, initial, start, committed + [target], env)
  {
    hide RowsOf, RowAsAsked;
  }

  ghost predicate LastRowAsAsked(db: Db, id: string, target: State, when: Moment) {
    var rows := RowsOf(db.journal, id);
    rows != [] && RowAsAsked(rows[|rows| - 1], id, target, when)
  }

  /** Nobody else moves Runs or holds the database, and the process does not die. */
  ghost predicate Undisturbed(env: Environment) {
    forall i: nat :: env.moment(i).others == [] && !env.moment(i).locked && env.moment(i).crashAt > 8
  }

  function DrawnEntries(env: Environment, n: nat): set<string> {
    set i: nat | i < n :: env.moment(i).ids.entryId
  }

  function DrawnFailures(env: Environment, n: nat): set<string> {
    set i: nat | i < n :: env.moment(i).ids.failureId
  }

  /** The tables hold nothing but what they held and what `n` transitions of the
      pipeline added. */
  ghost predicate Alone(db: Db, found: Db, env: Environment, start: Run, n: nat) {
    && Actors.EntryIds(db.journal) <= Actors.EntryIds(found.journal) + DrawnEntries(env, n)
    && db.failures.Keys <= found.failures.Keys + DrawnFailures(env, n)
    && (start.runId in found.runs && found.runs[start.runId] == start ==>
          start.runId in db.runs && db.runs[start.runId].stateVersion == start.stateVersion + n)
  }

  ghost predicate Footprint(tables: Db, initial: map<string, Run>, audit: set<Key>, env: Environment, origin: Origin,
                            start: Run, committed: seq<State>, ids: Ids)
  {
    && Tied(tables.journal, initial, start, committed, env)
    && Audited(audit, origin.audit, env, ids)
    && (Undisturbed(env) ==> Alone(tables, origin.tables, env, start, |committed|))
  }

  /** The tables agree with the trace. */
  ghost predicate Traced(db: Database, t: Trace, env: Environment)
    reads db
  {
    Footprint(db.committed, db.initial, db.audit, env, t.origin, t.start, t.committed, IdsOf(t))
  }

  /* ---- Endings without a Run -------------------------------------------------------------------- */

  /** An answer on which the pipeline, standing where it stands, gives up with an
      exception it does not catch. */
  predicate SomethingRaised(t: Trace, env: Environment) {
    match StateAfter(t)
    case Planning => env.planner.PlannerRaised?
    case PreparingWorkspace => t.attempts == [] && env.worktree.BaselineRaised?
    case AwaitingApproval => t.decisions != [] && env.approval(|t.decisions| - 1).None?
    case Executing => t.workerCalls > 0 && env.worker(t.workerCalls - 1).WorkerRaised?
    case HostValidating => env.observed(|t.attempts|).None?
    case Verifying =>
      || (|t.attempts| == |t.reworks| && t.verifierCalls > 0 && VerifierRaises(env.verifier(t.verifierCalls - 1)))
      || Unbuildable(t)
    case AwaitingFinalApproval => env.finalApproval.None?
    case _ => false
  }

  predicate VerifierRaises(a: VerifierAnswer) {
    a.VerifierRaised? || (a.VerifierAnswered? && !WellFormed(a.result))
  }

  /** A REWORK verdict that no rework contract can be built for. */
  predicate Unbuildable(t: Trace) {
    var n := |t.attempts|;
    && t.contract.Some? && n > 0 && |t.reworks| == n - 1 && t.attempts[n - 1].accepted == Contracts.Rework
    && !R.Reworkable(t.contract.value, t.attempts[n - 1].result, n, None)
  }

  /** The Run stands where the trace left it. */
  predicate LeftThere(db: Db, t: Trace) {
    && t.start.runId in db.runs
    && db.runs[t.start.runId].state == StateAfter(t)
    && db.runs[t.start.runId].stateVersion == t.start.stateVersion + |t.committed|
  }

  /** Why the pipeline may end without returning a Run: it died, an answer raised,
      a key or an identifier was taken, the database was held by someone else for
      too long, or someone else moved the Run. */
  ghost predicate Cause(db: Db, e: Ending, t: Trace, env: Environment) {
    var when := env.moment(|t.committed|);
    match e
    case Died => when.crashAt <= 8
    case Aborted => SomethingRaised(t, env) && LeftThere(db, t)
    case Duplicate(table) =>
      && LeftThere(db, t)
      && StateAfter(t) == (if table in {ContractTable, DecisionTable} then ContractValidating else Verifying)
      && LastKeyTaken(t, table, env)
    case Busy(table) =>
      && LeftThere(db, t)
      && StateAfter(t) == (if table in {ContractTable, DecisionTable} then ContractValidating else Verifying)
      && var ids := IdsOf(t).In(table); ids != [] && env.busy(table, |ids| - 1)
    case Raised(Locked) => when.locked
    case Raised(VersionMismatch) =>
      && t.start.runId in db.runs
      && db.runs[t.start.runId].stateVersion > t.start.stateVersion + |t.committed|
    case Raised(ConstraintFailed) =>
      when.ids.entryId in Actors.EntryIds(db.journal) || when.ids.failureId in db.failures
    case Raised(_) => false
  }

  predicate LastKeyTaken(t: Trace, table: Table, env: Environment) {
    var ids := IdsOf(t).In(table);
    ids != [] && !NewAt(t.origin.audit, env, table, ids, |ids| - 1)
  }

  /** The rows the database was asked to store, the last of them unless it was busy. */
  function AskedFor(e: Ending, t: Trace): Ids {
    if e.Busy? && IdsOf(t).In(e.table) != [] then IdsOf(t).Without(e.table) else IdsOf(t)
  }

  ghost predicate Interrupted(db: Database, e: Ending, t: Trace, env: Environment)
    reads db
  {
    && Footprint(db.committed, db.initial, db.audit, env, t.origin, t.start, t.committed, AskedFor(e, t))
    && Cause(db.committed, e, t, env)
    && (e.Duplicate? <==> !AllNew(t.origin.audit, env, AskedFor(e, t)))
  }

  /** The pipeline remembers `run`, as its own last transition left it. */
  ghost predicate Holds(db: Database, t: Trace, run: Run, env: Environment)
    reads db
  {
    && db.Valid() && Remembered(db.committed, run) && At(t, run)
    && t.start.state == Created && (t.committed != [] ==> Latest(db, run))
    && Traced(db, t, env) && AllNew(t.origin.audit, env, IdsOf(t))
    && FailureStored(db.committed.failures, t.start.runId, t.committed, t.failure, env)
  }

  /** No one has moved the Run since. */
  ghost predicate Latest(db: Database, run: Run)
    reads db
  {
    run.runId in db.committed.runs && db.committed.runs[run.runId] == run
  }

  /** Before its first transition the pipeline has read the Run and no more. */
  lemma FreshRead(db: Database, run: Run, env: Environment)
    requires db.Valid() && Remembered(db.committed, run) && run.state == Created
    ensures Holds(db, NewTrace(Origin(db.committed, db.audit), run), run, env)
  {
    hide Consistent;
  }

  lemma FootprintLater(before: Db, after: Db, initial: map<string, Run>, audit: set<Key>, env: Environment,
                       origin: Origin, start: Run, committed: seq<State>, ids: Ids)
    requires Footprint(before, initial, audit, env, origin, start, committed, ids)
    requires RowsOf(before.journal, start.runId) <= RowsOf(after.journal, start.runId)
    requires Undisturbed(env) ==> before == after
    ensures Footprint(after, initial, audit, env, origin, start, committed, ids)
  {
    hide RowsOf, Alone, Audited, Tied, Undisturbed;
    TiedLater(before.journal, after.journal, initial, start, committed, env);
  }

  /** What a committed transition did to the tables. */
  ghost predicate Landed(before: Db, after: Db, initial: map<string, Run>, run: Run, target: State, when: Moment,
                         failure: Option<FailureRecord>) {
    && RowsOf(before.journal, run.runId) <= RowsOf(after.journal, run.runId)
    && Actors.LastRowIs(after, initial, run, target) && LastRowAsAsked(after, run.runId, target, when)
    && run.runId in after.runs && after.runs[run.runId].stateVersion == run.stateVersion + 1
    && (failure.Some? ==> failure.value.failureId == when.ids.failureId)
    && (when.others == [] ==>
          && Actors.EntryIds(after.journal) == Actors.EntryIds(before.journal) + {when.ids.entryId}
          && after.failures.Keys == before.failures.Keys + Actors.FailureIdOf(failure))
  }

  lemma FootprintStep(before: Db, after: Db, initial: map<string, Run>, audit: set<Key>, env: Environment,
                      origin: Origin, start: Run, committed: seq<State>, ids: Ids, run: Run, target: State,
                      failure: Option<FailureRecord>)
    requires Footprint(before, initial, audit, env, origin, start, committed, ids)
    requires run.runId == start.runId && run.stateVersion == start.stateVersion + |committed|
    requires Landed(before, after, initial, run, target, env.moment(|committed|), failure)
    ensures Footprint(after, initial, audit, env, origin, start, committed + [target], ids)
  {
    hide RowsOf, Alone, Audited, Tied, LastRowAsAsked, Actors.LastRowIs, Actors.EntryIds;
    TiedStep(before.journal, after, initial, start, committed, run, target, env);
    if Undisturbed(env) {
      AloneStep(before, after, origin.tables, env, start, |committed|, failure);
    }
  }

  lemma UndisturbedAt(env: Environment, i: nat)
    requires Undisturbed(env)
    ensures env.moment(i).others == [] && !env.moment(i).locked && env.moment(i).crashAt > 8
  {
  }

  lemma FootprintRow(tables: Db, initial: map<string, Run>, audit: set<Key>, between: set<Key>, env: Environment,
                     origin: Origin, start: Run, committed: seq<State>, ids: Ids, table: Table, id: string)
    requires Footprint(tables, initial, audit, env, origin, start, committed, ids) && AllNew(origin.audit, env, ids)
    requires forall k :: k in between <==>
               k in audit || (k.table == table && k.id in env.elsewhere(table, |ids.In(table)|))
    ensures var n, longer := |ids.In(table)|, ids.With(table, id);
            && Footprint(tables, initial, between + {Key(table, id)}, env, origin, start, committed, longer)
            && (Key(table, id) !in between <==> NewAt(origin.audit, env, table, longer.In(table), n))
            && (Key(table, id) !in between <==> AllNew(origin.audit, env, longer))
  {
    hide Tied, Alone, Audited, AllNew, NewAt, Undisturbed;
    NewRowFits(audit, between + {Key(table, id)}, origin.audit, env, ids, table, id);
    NewRowIsNew(between, audit, origin.audit, env, ids, table, id);
  }

  lemma AloneStep(before: Db, db: Db, found: Db, env: Environment, start: Run, n: nat, failure: Option<FailureRecord>)
    requires Alone(before, found, env, start, n)
    requires Actors.EntryIds(db.journal) == Actors.EntryIds(before.journal) + {env.moment(n).ids.entryId}
    requires db.failures.Keys == before.failures.Keys + Actors.FailureIdOf(failure)
    requires failure.Some? ==> failure.value.failureId == env.moment(n).ids.failureId
    requires start.runId in db.runs && db.runs[start.runId].stateVersion == start.stateVersion + n + 1
    ensures Alone(db, found, env, start, n + 1)
  {
    hide Actors.EntryIds, DrawnEntries, DrawnFailures;
    DrawnNext(env, n);
  }

  lemma DrawnNext(env: Environment, n: nat)
    ensures DrawnEntries(env, n + 1) == DrawnEntries(env, n) + {env.moment(n).ids.entryId}
    ensures DrawnFailures(env, n + 1) == DrawnFailures(env, n) + {env.moment(n).ids.failureId}
  {
  }

  function EndingOf(applied: ApplyResult): Ending
    requires !applied.Committed?
  {
    if applied.Crashed? then Died else Raised(applied.error)
  }

  /** The record a failing stage writes. */
  function RecordOf(cause: Option<Failing>, id: string, when: Moment): (record: Option<FailureRecord>)
    ensures record.Some? <==> cause.Some?
    ensures record.Some? ==> record.value.runId == id && record.value.failureId == when.ids.failureId
  {
    match cause
    case None => None
    case Some(f) => Some(FailureRecord(when.ids.failureId, id, f.stage, f.code, false, "", when.now))
  }

  /** What a logged request of the pipeline has left in the tables. */
  lemma LoggedAsAsked(db: Db, q: Request, cause: Option<Failing>, when: Moment, committed: seq<State>,
                      env: Environment)
    requires Actors.Logged(db, q) && when == env.moment(|committed|)
    requires q.now == when.now && q.entryId == when.ids.entryId && q.actor == Harness("orchestrator")
    requires q.correlationId == "run-" + q.runId && q.failure == RecordOf(cause, q.runId, when)
    requires RightKind(q.target, if q.pending.Some? then Some(q.pending.value.kind) else None)
    requires q.pending.Some? ==> q.pending.value.requestedAt == when.now
    requires cause.Some? <==> q.target == Failed
    ensures LastRowAsAsked(db, q.runId, q.target, when)
    ensures FailureStored(db.failures, q.runId, committed + [q.target], cause, env)
  {
    hide RowsOf, RightKind;
  }

  /** One call of `apply_transition` on the remembered version. */
  method Ask(db: Database, run: Run, target: State, cause: Option<Failing>,
             pending: Option<PendingKind>, env: Environment, before: Trace)
    returns (applied: ApplyResult)
    requires Holds(db, before, run, env) && RightKind(target, pending)
    requires Accepts(run.state, target, cause.Some?, pending.Some?)
    modifies db`committed, db`working
    ensures db.Valid()
    ensures !applied.Committed? ==> Interrupted(db, EndingOf(applied), before, env)
    ensures applied.Committed? ==>
              && applied.outcome.run.runId == run.runId && applied.outcome.run.state == target
              && applied.outcome.run.stateVersion == run.stateVersion + 1
              && Remembered(db.committed, applied.outcome.run) && Latest(db, applied.outcome.run)
              && Footprint(db.committed, db.initial, db.audit, env, before.origin, before.start,
                           before.committed + [target], IdsOf(before))
              && FailureStored(db.committed.failures, run.runId, before.committed + [target], cause, env)
  {
    hide CanTransition, Audited, LegalTrace, Consistent, RowsOf, Footprint, AllNew, IdsFrom, SomethingRaised,
      LastKeyTaken, Actors.LastRowIs, Actors.EntryIds, Undisturbed, RecordOf, FailureStored, LastRowAsAsked,
      Actors.Logged, RightKind;
    var when := env.moment(|before.committed|);
    ghost var tables := db.committed;
    var failure := RecordOf(cause, run.runId, when);
    var action := match pending
                  case None => None
                  case Some(kind) => Some(PendingAction(kind, "pending", when.now));
    applied := Actors.Attempt(db, run, target, when.now, Harness("orchestrator"), "run-" + run.runId, failure, action,
                              when.ids, when.others, when.locked, when.crashAt);
    if Undisturbed(env) {
      UndisturbedAt(env, |before.committed|);
    }
    if applied.Committed? {
      LoggedAsAsked(db.committed,
                    Request(run.runId, target, when.now, run.stateVersion, Harness("orchestrator"), "run-" + run.runId,
                            failure, action, when.ids.entryId),
                    cause, when, before.committed, env);
      FootprintStep(tables, db.committed, db.initial, db.audit, env, before.origin, before.start, before.committed,
                    IdsOf(before), run, target, failure);
    } else {
      FootprintLater(tables, db.committed, db.initial, db.audit, env, before.origin, before.start, before.committed,
                     IdsOf(before));
    }
  }

  /** `_advance` and `_fail`: one requested transition, always a legal one. */
  method Transition(db: Database, run: Run, target: State, cause: Option<Failing>,
                    pending: Option<PendingKind>, env: Environment, before: Trace)
    returns (r: Result<Run, Ending>, trace: Trace)
    requires Holds(db, before, run, env) && RightKind(target, pending)
    requires Accepts(run.state, target, cause.Some?, pending.Some?)
    modifies db`committed, db`working
    ensures db.Valid()
    ensures r.Failure? ==> Interrupted(db, r.error, before, env) && trace == before
    ensures r.Success? ==>
              && trace == Step(before, target).(failure := cause) && r.value.state == target
              && Holds(db, trace, r.value, env)
  {
    hide Legal, Consistent, Footprint, AllNew, IdsFrom, Interrupted, Remembered, FailureStored, RightKind;
    var applied := Ask(db, run, target, cause, pending, env, before);
    if !applied.Committed? {
      return Failure(EndingOf(applied)), before;
    }
    StepIsLegal(before, run, target);
    trace := Step(before, target).(failure := cause);
    assert At(trace, applied.outcome.run);
    return Success(applied.outcome.run), trace;
  }

  /** One row more in the audit trail, or the end of the pipeline. */
  method Store(db: Database, run: Run, table: Table, id: string, env: Environment, before: Trace, ghost trace: Trace)
    returns (stored: Result<(), Ending>)
    requires Holds(db, before, run, env)
    requires At(trace, run) && trace.origin == before.origin && trace.start == before.start
    requires trace.committed == before.committed && trace.failure == before.failure
    requires IdsOf(trace) == IdsOf(before).With(table, id)
    requires run.state == if table in {ContractTable, DecisionTable} then ContractValidating else Verifying
    modifies db`audit
    ensures stored.Success? ==> Holds(db, trace, run, env)
    ensures stored.Failure? ==>
              && db.Valid() && Interrupted(db, stored.error, trace, env)
              && stored.error == if env.busy(table, |IdsOf(before).In(table)|) then Busy(table) else Duplicate(table)
  {
    hide LegalTrace, Consistent, Footprint, AllNew, NewAt, IdsFrom, SomethingRaised, FailureStored;
    ghost var rows := db.audit;
    if env.busy(table, |IdsOf(before).In(table)|) {
      IdsOf(before).WithoutLast(table, id);
      return Failure(Busy(table));
    }
    Actors.StoreElsewhere(db, table, env.elsewhere(table, |IdsOf(before).In(table)|));
    ghost var between := db.audit;
    var ok := db.InsertAudit(Key(table, id));
    FootprintRow(db.committed, db.initial, rows, between, env, before.origin, before.start, before.committed,
                 IdsOf(before), table, id);
    stored := if ok then Success(()) else Failure(Duplicate(table));
  }

  /** The pipeline gives up where it stands. */
  lemma GivesUp(db: Database, t: Trace, run: Run, env: Environment)
    requires Holds(db, t, run, env) && t.committed != [] && SomethingRaised(t, env)
    ensures Interrupted(db, Aborted, t, env)
  {
    hide Legal, Consistent, Footprint, AllNew, IdsFrom, SomethingRaised;
  }

  method Advance(db: Database, run: Run, target: State, pending: Option<PendingKind>, env: Environment, before: Trace)
    returns (r: Result<Run, Ending>, trace: Trace)
    requires Holds(db, before, run, env) && RightKind(target, pending)
    requires Accepts(run.state, target, false, pending.Some?)
    modifies db`committed, db`working
    ensures db.Valid()
    ensures r.Failure? ==> Interrupted(db, r.error, before, env) && trace == before
    ensures r.Success? ==>
              && trace == Step(before, target) && r.value.state == target
              && Holds(db, trace, r.value, env)
  {
    hide Legal, Consistent, Footprint, AllNew, IdsFrom, Interrupted, Remembered, RightKind, FailureStored;
    UnfailedSoFar(db, before, run, env);
    r, trace := Transition(db, run, target, None, pending, env, before);
  }

  /** A Run that still moves has no failure. */
  lemma UnfailedSoFar(db: Database, t: Trace, run: Run, env: Environment)
    requires Holds(db, t, run, env) && !IsTerminal(run.state)
    ensures t.failure == None
  {
    hide Legal, Consistent, Footprint, AllNew, IdsFrom, Remembered;
  }

  method Fail(db: Database, run: Run, stage: Stage, code: FailureCode, env: Environment, before: Trace)
    returns (r: Result<Run, Ending>, trace: Trace)
    requires Holds(db, before, run, env)
    requires CanTransition(run.state, Failed)
    modifies db`committed, db`working
    ensures db.Valid()
    ensures r.Failure? ==> Interrupted(db, r.error, before, env) && trace == before
    ensures r.Success? ==>
              && trace == Step(before, Failed).(failure := Some(Failing(stage, code))) && r.value.state == Failed
              && Holds(db, trace, r.value, env)
  {
    hide Legal, Consistent, Footprint, AllNew, IdsFrom, Interrupted, Remembered, FailureStored;
    r, trace := Transition(db, run, Failed, Some(Failing(stage, code)), None, env, before);
  }

  /** `trace` adds at most `n` transitions and nothing else. */
  ghost predicate Moved(before: Trace, trace: Trace, n: nat) {
    && trace == before.(committed := trace.committed, failure := trace.failure) && LegalTrace(trace)
    && |before.committed| <= |trace.committed| <= |before.committed| + n
  }
}
