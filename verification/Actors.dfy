/** The processes that move Runs besides the pipeline: the CLI commands
    (interfaces/cli.py) and the recovery scan (application/recovery.py). Each
    reads a Run, decides, and asks for one transition on the version it read;
    anyone else may move the Run in between. */
module Actors {
  import opened Wrappers
  import opened Lifecycle
  import opened Journal
  import opened Database

  /** The fresh identifiers one attempt draws. */
  datatype Ids = Ids(entryId: string, failureId: string)

  /** What the other processes do between two steps of this one. */
  type Interference = qs: seq<Request> | (forall q <- qs :: OwnFailure(q)) witness []

  method Interfere(db: Database, others: Interference, ghost seen: Run)
    requires db.Valid() && Remembered(db.committed, seen)
    modifies db`committed, db`working
    ensures db.Valid() && Remembered(db.committed, seen)
    ensures others == [] ==> db.committed == old(db.committed)
    ensures RowsOf(old(db.committed).journal, seen.runId) <= RowsOf(db.committed.journal, seen.runId)
  {
    hide Consistent, After;
    for i := 0 to |others|
      invariant db.Valid() && Remembered(db.committed, seen)
      invariant i == 0 ==> db.committed == old(db.committed)
      invariant RowsOf(old(db.committed).journal, seen.runId) <= RowsOf(db.committed.journal, seen.runId)
    {
      ghost var before := db.committed;
      var r := db.ApplyTransition(others[i], 9);
      if r.Committed? {
        MovesKeepRemembered(before, seen, others[i], db.hash);
        CommitAddsARow(before, others[i], db.hash, seen.runId);
      }
    }
  }

  /** What other processes store in an audit table in the meantime. */
  method StoreElsewhere(db: Database, table: Table, ids: set<string>)
    modifies db`audit
    ensures forall k :: k in db.audit <==> k in old(db.audit) || (k.table == table && k.id in ids)
  {
    db.audit := db.audit + set id <- ids :: Key(table, id);
  }

  function EntryIds(journal: seq<Entry>): set<string> {
    set e <- journal :: e.body.entryId
  }

  function FailureIdOf(failure: Option<FailureRecord>): set<string> {
    if failure.Some? then {failure.value.failureId} else {}
  }

  /** An identifier drawn for an attempt is already in the tables. */
  predicate IdsTaken(db: Db, entryId: string, failure: Option<FailureRecord>) {
    || entryId in EntryIds(db.journal)
    || (failure.Some? && failure.value.failureId in db.failures)
  }

  /** One attempt to move a Run that was read earlier. A request that is legal for
      the Run as it was read is refused for one reason only: someone else moved
      the Run first (or a drawn identifier was not fresh, or the write lock could
      not be had in time). When it commits, no one moved the Run in between. */
  method Attempt(db: Database, seen: Run, target: State, now: Time, actor: Actor, correlationId: string,
                 failure: Option<FailureRecord>, pending: Option<PendingAction>,
                 ids: Ids, others: Interference, locked: bool, crashAt: nat)
    returns (r: ApplyResult)
    requires db.Valid() && Remembered(db.committed, seen)
    requires failure.Some? ==> failure.value.runId == seen.runId
    requires Accepts(seen.state, target, failure.Some?, pending.Some?)
    modifies db`committed, db`working
    ensures db.Valid() && Remembered(db.committed, seen)
    ensures r == RolledBack(Locked) <==> locked
    ensures r.RolledBack? ==> r.error in {VersionMismatch, ConstraintFailed, Locked}
    ensures r.RolledBack? && r.error == ConstraintFailed ==> IdsTaken(db.committed, ids.entryId, failure)
    ensures r.RolledBack? && r.error == VersionMismatch ==>
              db.committed.runs[seen.runId].stateVersion > seen.stateVersion
    ensures r.RolledBack? && others == [] && r.error == VersionMismatch ==>
              old(db.committed).runs[seen.runId].stateVersion > seen.stateVersion
    ensures r.Committed? ==>
              && r.outcome.run == seen.(
                   state := target, stateVersion := seen.stateVersion + 1, updatedAt := now,
                   disposition := if IsTerminal(target) then Some(target) else seen.disposition)
              && r.outcome.failure == failure && r.outcome.pending == pending
              && Remembered(db.committed, r.outcome.run)
              && db.committed.runs[seen.runId] == r.outcome.run
    ensures r.Crashed? ==> crashAt <= 8
    ensures RowsOf(old(db.committed).journal, seen.runId) <= RowsOf(db.committed.journal, seen.runId)
    ensures r.Committed? ==> LastRowIs(db.committed, db.initial, seen, target)
    ensures r.Committed? ==>
              Logged(db.committed, Request(seen.runId, target, now, seen.stateVersion, actor, correlationId, failure,
                                           pending, ids.entryId))
    ensures others == [] && r.RolledBack? ==> db.committed == old(db.committed)
    ensures others == [] && r.Committed? ==>
              && EntryIds(db.committed.journal) == EntryIds(old(db.committed).journal) + {ids.entryId}
              && db.committed.failures.Keys == old(db.committed).failures.Keys + FailureIdOf(failure)
  {
    hide Consistent, After, RowsOf, LastRowIs, Logged, Written;
    Interfere(db, others, seen);
    if locked {
      return RolledBack(Locked);
    }
    var q := Request(seen.runId, target, now, seen.stateVersion, actor, correlationId, failure, pending, ids.entryId);
    ghost var before := db.committed;
    r := db.ApplyTransition(q, crashAt);
    if r.Committed? || db.committed != before {
      RequestLands(before, db.initial, seen, q, db.hash);
    }
  }

  /** The last row of the Run's journal tells of the request, and the failure record,
      if there is one, is stored. */
  ghost predicate Logged(db: Db, q: Request) {
    var rows := RowsOf(db.journal, q.runId);
    && rows != [] && Tells(rows[|rows| - 1], q)
    && (q.failure.Some? ==>
          var id := q.failure.value.failureId; id in db.failures && db.failures[id] == q.failure.value)
  }

  /** The last row of a Run read as `seen` is the one that took it to `target`. */
  ghost predicate LastRowIs(db: Db, initial: map<string, Run>, seen: Run, target: State) {
    var rows := RowsOf(db.journal, seen.runId);
    && seen.runId in initial && rows != [] && rows[|rows| - 1].body.stateAfter == target
    && initial[seen.runId].stateVersion + |rows| == seen.stateVersion + 1
  }

  lemma RequestLands(db: Db, initial: map<string, Run>, seen: Run, q: Request, h: Hasher)
    requires Consistent(db, initial, h) && Remembered(db, seen) && Commits(db, q)
    requires q.runId == seen.runId && q.expectedVersion == seen.stateVersion
    ensures var after := After(db, q, h);
            && after.runs[seen.runId] == MovedRun(seen, q)
            && Remembered(after, seen)
            && RowsOf(db.journal, seen.runId) <= RowsOf(after.journal, seen.runId)
            && LastRowIs(after, initial, seen, q.target) && Logged(after, q)
            && EntryIds(after.journal) == EntryIds(db.journal) + {q.entryId}
            && after.failures.Keys == db.failures.Keys + FailureIdOf(q.failure)
  {
    hide Consistent, RowsOf;
    CommitIsWritten(db, q, h);
    CommitAddsARow(db, q, h, seen.runId);
    VersionCountsRows(db, initial, seen.runId, h);
    EntryIdsAppend(db.journal, NextRow(db.runs[q.runId], RowsOf(db.journal, q.runId), q, h));
  }

  lemma EntryIdsAppend(journal: seq<Entry>, row: Entry)
    ensures EntryIds(journal + [row]) == EntryIds(journal) + {row.body.entryId}
  {
    var longer := journal + [row];
    assert longer[|journal|] == row;
    forall id ensures id in EntryIds(longer) <==> id in EntryIds(journal) || id == row.body.entryId {
      if id in EntryIds(journal) {
        var e :| e in journal && e.body.entryId == id;
        assert e in longer;
      }
    }
  }

  /* ---- The CLI ------------------------------------------------------------------- */

  datatype CliResult =
    | UnknownRun | Refuse                      // exit code 1, nothing requested
    | NoRationale                              // a pending action needs a description
    | Moved(run: Run) | Raised(error: ApplyError) | Died

  function ApproveTarget(s: State): Option<State> {
    match s
    case AwaitingApproval => Some(PreparingWorkspace)
    case AwaitingFinalApproval => Some(ReadyForMerge)
    case AwaitingManualReview => Some(AwaitingFinalApproval)
    case _ => None
  }

  function RejectTarget(s: State): Option<State> {
    match s
    case AwaitingApproval => Some(Failed)
    case AwaitingFinalApproval => Some(ReworkContracting)
    case AwaitingManualReview => Some(ReworkContracting)
    case _ => None
  }

  datatype Command = Approve | Reject | Resume(to: State) | Cancel

  /** The state a command asks for when it finds the Run in state `s`; None when
      the command refuses to act. */
  function CommandTarget(c: Command, s: State): (t: Option<State>)
    ensures t.Some? ==> CanTransition(s, t.value)
    ensures t.None? <==>
              match c
              case Approve => !IsWaiting(s) || s == RecoveryRequired
              case Reject => !IsWaiting(s) || s == RecoveryRequired
              case Resume(to) => s != RecoveryRequired || to !in RECOVERY_RESTART_TARGETS
              case Cancel => IsTerminal(s)
    ensures c.Resume? && t.Some? ==> t.value == c.to && c.to != Executing
    ensures c.Cancel? && t.Some? ==> t.value == Cancelled
    ensures c.Approve? && t.Some? ==> t.value in {PreparingWorkspace, AwaitingFinalApproval, ReadyForMerge}
    ensures c.Reject? && t.Some? ==> t.value == if s == AwaitingApproval then Failed else ReworkContracting
  {
    match c
    case Approve => ApproveTarget(s)
    case Reject => RejectTarget(s)
    case Resume(to) => if s == RecoveryRequired && to in RECOVERY_RESTART_TARGETS then Some(to) else None
    case Cancel => if IsTerminal(s) then None else Some(Cancelled)
  }

  /** One CLI command. It refuses exactly when its target is undefined, and then
      requests nothing; otherwise its request is always legal, so that it fails
      only when someone else moved the Run after the command had read it. */
  method RunCommand(db: Database, c: Command, runId: string, rationale: string, now: Time,
                    ids: Ids, others: Interference, locked: bool, crashAt: nat)
    returns (r: CliResult)
    requires db.Valid()
    modifies db`committed, db`working
    ensures db.Valid()
    ensures r.UnknownRun? <==> runId !in old(db.committed).runs
    ensures r.Refuse? <==> runId in old(db.committed).runs
                           && CommandTarget(c, old(db.committed).runs[runId].state).None?
    ensures r.NoRationale? <==>
              && runId in old(db.committed).runs && rationale == "" && !c.Resume?
              && var t := CommandTarget(c, old(db.committed).runs[runId].state);
              && t.Some? && IsWaiting(t.value)
    ensures r.UnknownRun? || r.Refuse? || r.NoRationale? ==> db.committed == old(db.committed)
    ensures r.Raised? ==> r.error in {VersionMismatch, ConstraintFailed, Locked}
    ensures r == Raised(Locked) <==> locked && !r.UnknownRun? && !r.Refuse? && !r.NoRationale?
    ensures r.Raised? && r.error == VersionMismatch ==>
              others != []
              && db.committed.runs[runId].stateVersion > old(db.committed).runs[runId].stateVersion
    ensures r.Moved? ==>
              && Some(r.run.state) == CommandTarget(c, old(db.committed).runs[runId].state)
              && r.run.stateVersion == old(db.committed).runs[runId].stateVersion + 1
              && db.committed.runs[runId] == r.run
    ensures r.Moved? ==> CommandWritten(db.committed, c, runId, r.run.state, rationale, now, ids)
    ensures crashAt > 8 ==> !r.Died?
  {
    hide Consistent, RowsOf, Logged, CommandWritten, LastRowIs, EntryIds;
    var found := db.GetRun(runId);
    if found.None? {
      return UnknownRun;
    }
    var run := found.value;
    StoredUnderOwnId(db.committed, db.initial, runId, db.hash);
    var target := CommandTarget(c, run.state);
    if target.None? {
      return Refuse;
    }
    var pending := None;
    if IsWaiting(target.value) {
      if c.Resume? {
        pending := Some(PendingAction(RecoveryDecisionPending, "resumed from RECOVERY_REQUIRED", now));
      } else if rationale == "" {
        return NoRationale;
      } else {
        pending := Some(PendingAction(FinalApprovalPending, rationale, now));
      }
    }
    r := SendCommand(db, c, run, target.value, pending, rationale, now, ids, others, locked, crashAt);
  }

  /** What a command asks for once its target is settled. */
  method SendCommand(db: Database, c: Command, run: Run, target: State, pending: Option<PendingAction>,
                     rationale: string, now: Time, ids: Ids, others: Interference, locked: bool, crashAt: nat)
    returns (r: CliResult)
    requires db.Valid() && Remembered(db.committed, run) && db.committed.runs[run.runId] == run
    requires CommandTarget(c, run.state) == Some(target) && (pending.Some? <==> IsWaiting(target))
    requires pending.Some? && c.Resume? ==> pending.value.kind == RecoveryDecisionPending
    requires pending.Some? && !c.Resume? ==> pending.value == PendingAction(FinalApprovalPending, rationale, now)
    modifies db`committed, db`working
    ensures db.Valid() && (r.Raised? || r.Moved? || r.Died?)
    ensures r.Raised? ==> r.error in {VersionMismatch, ConstraintFailed, Locked}
    ensures r == Raised(Locked) <==> locked
    ensures r.Raised? && r.error == VersionMismatch ==>
              others != [] && db.committed.runs[run.runId].stateVersion > run.stateVersion
    ensures r.Moved? ==>
              && r.run.state == target && r.run.stateVersion == run.stateVersion + 1
              && run.runId in db.committed.runs && db.committed.runs[run.runId] == r.run
              && CommandWritten(db.committed, c, run.runId, target, rationale, now, ids)
    ensures crashAt > 8 ==> !r.Died?
  {
    hide Consistent, RowsOf, Logged, CommandWritten, LastRowIs, EntryIds;
    var failure := None;
    if target == Failed {
      failure := Some(FailureRecord(ids.failureId, run.runId, ApprovalStage, PolicyDenied, false, rationale, now));
    }
    var action := match c
                  case Resume(_) => "resume-"
                  case Cancel => "cancel-"
                  case _ => "approve-";
    var correlationId := "cli-" + action + run.runId;
    var applied := Attempt(db, run, target, now, User("cli"), correlationId, failure, pending, ids,
                           others, locked, crashAt);
    match applied
    case Committed(outcome) =>
      LoggedAsCommanded(db.committed, c, run.state, rationale, now, ids,
                        Request(run.runId, target, now, run.stateVersion, User("cli"), correlationId,
                                failure, pending, ids.entryId));
      return Moved(outcome.run);
    case RolledBack(error) => return Raised(error);
    case Crashed => return Died;
  }

  lemma LoggedAsCommanded(db: Db, c: Command, s: State, rationale: string, now: Time, ids: Ids, q: Request)
    requires Logged(db, q) && CommandTarget(c, s) == Some(q.target)
    requires q.actor == User("cli") && q.now == now && q.entryId == ids.entryId
    requires q.correlationId
             == "cli-" + (if c.Resume? then "resume-" else if c.Cancel? then "cancel-" else "approve-") + q.runId
    requires q.pending.Some? <==> IsWaiting(q.target)
    requires q.pending.Some? && c.Resume? ==> q.pending.value.kind == RecoveryDecisionPending
    requires q.pending.Some? && !c.Resume? ==> q.pending.value == PendingAction(FinalApprovalPending, rationale, now)
    requires q.target == Failed ==>
               q.failure
               == Some(FailureRecord(ids.failureId, q.runId, ApprovalStage, PolicyDenied, false, rationale, now))
    requires q.target != Failed ==> q.failure == None
    ensures CommandWritten(db, c, q.runId, q.target, rationale, now, ids)
  {
    hide RowsOf;
    assert "cli-" + "approve-" == "cli-approve-" && "cli-" + "resume-" == "cli-resume-";
    assert "cli-" + "cancel-" == "cli-cancel-";
  }

  /** The row of a command: by the user, under the command's name (a rejection goes by
      the name of an approval), with the rationale as what is pending next or as the
      detail of the failure. */
  ghost predicate CommandWritten(db: Db, c: Command, id: string, target: State, rationale: string, now: Time,
                                 ids: Ids) {
    var rows := RowsOf(db.journal, id);
    && rows != []
    && var b := rows[|rows| - 1].body;
    && b.actor == User("cli") && b.timestamp == now && b.entryId == ids.entryId && b.runId == id
    && b.stateAfter == target
    && (c.Approve? || c.Reject? ==> b.correlationId == "cli-approve-" + id)
    && (c.Resume? ==> b.correlationId == "cli-resume-" + id)
    && (c.Cancel? ==> b.correlationId == "cli-cancel-" + id)
    && (b.pending.Some? <==> target in {AwaitingApproval, AwaitingManualReview, AwaitingFinalApproval})
    && (b.pending.Some? && c.Resume? ==> b.pending.value.kind == RecoveryDecisionPending)
    && (b.pending.Some? && !c.Resume? ==> b.pending.value == PendingAction(FinalApprovalPending, rationale, now))
    && (target == Failed ==>
          && b.failureId == Some(ids.failureId) && ids.failureId in db.failures
          && db.failures[ids.failureId]
             == FailureRecord(ids.failureId, id, ApprovalStage, PolicyDenied, false, rationale, now))
    && (target != Failed ==> b.failureId == None)
  }

  /* ---- The recovery scan ------------------------------------------------------------ */

  /** States that hold a host-side resource when a process dies in them. */
  const RECOVERABLE_STATES: set<State> := {PreparingWorkspace, Executing, FreezingResult, HostValidating}

  /** States with nothing to reconcile. */
  const STALE_NO_RECOVERY_PATH_STATES: set<State> := {Planning, ContractValidating, Verifying, ReworkContracting}

  /** Exactly the unfinished states in which a Run works rather than waits, except
      Created, are scanned; each of them has its legal way out, and no other
      choice of the two sets would do for the four recoverable ones. */
  lemma ScannedStates(s: State)
    ensures s in RECOVERABLE_STATES + STALE_NO_RECOVERY_PATH_STATES
            <==> !IsTerminal(s) && !IsWaiting(s) && s != Created
    ensures s in RECOVERABLE_STATES <==> CanTransition(s, RecoveryRequired)
    ensures s in STALE_NO_RECOVERY_PATH_STATES ==> CanTransition(s, Failed)
  {
  }

  predicate Stale(run: Run, cutoff: Time) {
    run.state in SCANNED_STATES && run.updatedAt <= cutoff
  }

  /** Where the scan takes a stale Run. */
  function RecoveredRun(run: Run, now: Time): Run {
    if run.state in RECOVERABLE_STATES then
      run.(state := RecoveryRequired, stateVersion := run.stateVersion + 1, updatedAt := now)
    else
      run.(state := Failed, stateVersion := run.stateVersion + 1, updatedAt := now, disposition := Some(Failed))
  }

  datatype RecoveryOutcome = RecoveryOutcome(runId: string, staleState: State, resulting: Run)

  /** The identifiers drawn for each Run are new and pairwise different. */
  ghost predicate FreshIds(db: Db, ids: string -> Ids) {
    && (forall e <- db.journal, id <- db.runs :: e.body.entryId != ids(id).entryId)
    && (forall id <- db.runs :: ids(id).failureId !in db.failures)
    && (forall a <- db.runs, b <- db.runs :: a != b ==>
          ids(a).entryId != ids(b).entryId && ids(a).failureId != ids(b).failureId)
  }

  /** What the scan has made of a Run. One that was interrupted while it held a
      host-side resource waits for an operator's decision and is not finished; any
      other has failed for good, retriable and with the state it was stale in. Its
      journal has one row more, which says so. */
  ghost predicate Recovered(before: Db, db: Db, id: string, drawn: Ids, now: Time)
    requires id in before.runs
  {
    var was, rows := before.runs[id], RowsOf(db.journal, id);
    && id in db.runs && rows != [] && rows[..|rows| - 1] == RowsOf(before.journal, id)
    && var run, b := db.runs[id], rows[|rows| - 1].body;
    && b.actor == Harness("recovery-coordinator") && b.correlationId == "recovery-scan-" + id
    && b.timestamp == now && b.entryId == drawn.entryId && b.stateBefore == was.state && b.stateAfter == run.state
    && run == was.(state := run.state, stateVersion := was.stateVersion + 1, updatedAt := now,
                   disposition := run.disposition)
    && if was.state in {PreparingWorkspace, Executing, FreezingResult, HostValidating} then
         && run.state == RecoveryRequired && run.disposition == was.disposition && b.failureId == None
         && b.pending.Some? && b.pending.value.kind == RecoveryDecisionPending && b.pending.value.requestedAt == now
       else
         && run.state == Failed && run.disposition == Some(Failed) && b.pending == None
         && b.failureId == Some(drawn.failureId) && drawn.failureId in db.failures
         && var f := db.failures[drawn.failureId];
         && f.failureId == drawn.failureId && f.runId == id && f.stage == During(was.state) && f.code == RunTimeout
         && f.retriable && f.occurredAt == now
  }

  /** How far a scan has come: the Runs in `done` are moved, nothing else is. */
  ghost predicate Scanned(before: Db, db: Db, done: set<string>, ids: string -> Ids, now: Time) {
    && db.runs.Keys == before.runs.Keys
    && (forall id <- before.runs ::
          db.runs[id] == if id in done then RecoveredRun(before.runs[id], now) else before.runs[id])
    && (forall id <- before.runs :: id in done ==> Recovered(before, db, id, ids(id), now))
    && (forall id <- before.runs :: id !in done ==> RowsOf(db.journal, id) == RowsOf(before.journal, id))
    && (forall e <- db.journal, id <- before.runs :: id !in done ==> e.body.entryId != ids(id).entryId)
    && (forall id <- before.runs :: id !in done ==> ids(id).failureId !in db.failures)
  }

  lemma ScanStep(before: Db, db: Db, done: set<string>, ids: string -> Ids, now: Time, q: Request, h: Hasher)
    requires Scanned(before, db, done, ids, now) && FreshIds(before, ids)
    requires Commits(db, q) && q.runId in before.runs && q.runId !in done
    requires q.entryId == ids(q.runId).entryId
    requires q.failure.Some? ==> q.failure.value.failureId == ids(q.runId).failureId
    requires MovedRun(before.runs[q.runId], q) == RecoveredRun(before.runs[q.runId], now)
    requires q == RecoveryRequest(before.runs[q.runId], now, ids(q.runId)) && before.runs[q.runId].runId == q.runId
    requires before.runs[q.runId].disposition.None? && before.runs[q.runId].state in SCANNED_STATES
    ensures Scanned(before, After(db, q, h), done + {q.runId}, ids, now)
  {
    hide Recovered, RowsOf, Written, Tells;
    var after := After(db, q, h);
    forall id <- before.runs | id !in done + {q.runId}
      ensures RowsOf(after.journal, id) == RowsOf(before.journal, id)
    {
      RowsOfAppend(db.journal, after.journal[|db.journal|], id);
    }
    forall id <- before.runs | id in done ensures Recovered(before, after, id, ids(id), now) {
      StaysRecovered(before, db, q, h, id, ids(id), now);
    }
    RecoversNow(before, db, q, h, ids(q.runId), now);
  }

  lemma StaysRecovered(before: Db, db: Db, q: Request, h: Hasher, id: string, drawn: Ids, now: Time)
    requires id in before.runs && Recovered(before, db, id, drawn, now) && Commits(db, q) && q.runId != id
    ensures Recovered(before, After(db, q, h), id, drawn, now)
  {
    hide RowsOf;
    CommitAddsARow(db, q, h, id);
  }

  lemma RecoversNow(before: Db, db: Db, q: Request, h: Hasher, drawn: Ids, now: Time)
    requires q.runId in before.runs && Commits(db, q) && db.runs[q.runId] == before.runs[q.runId]
    requires RowsOf(db.journal, q.runId) == RowsOf(before.journal, q.runId)
    requires q == RecoveryRequest(before.runs[q.runId], now, drawn) && before.runs[q.runId].runId == q.runId
    requires before.runs[q.runId].disposition.None? && before.runs[q.runId].state in SCANNED_STATES
    ensures Recovered(before, After(db, q, h), q.runId, drawn, now)
  {
    hide RowsOf;
    CommitAddsARow(db, q, h, q.runId);
  }

  /** The report lists exactly the Runs in `done`, each once, with the state it was
      found in and the row it was given. */
  ghost predicate Reported(report: seq<RecoveryOutcome>, done: set<string>, before: Db, now: Time) {
    && (set o <- report :: o.runId) == done
    && done <= before.runs.Keys
    && (forall o <- report :: o.staleState == before.runs[o.runId].state
                           && o.resulting == RecoveredRun(before.runs[o.runId], now))
    && (forall i, j :: 0 <= i < j < |report| ==> report[i].runId != report[j].runId)
  }

  lemma ReportStep(report: seq<RecoveryOutcome>, done: set<string>, before: Db, id: string, now: Time)
    requires Reported(report, done, before, now) && id in before.runs && id !in done
    ensures Reported(report + [RecoveryOutcome(id, before.runs[id].state, RecoveredRun(before.runs[id], now))],
                     done + {id}, before, now)
  {
    var o := RecoveryOutcome(id, before.runs[id].state, RecoveredRun(before.runs[id], now));
    var longer := report + [o];
    assert longer[|report|] == o;
    forall i | 0 <= i < |report| ensures longer[i].runId in done {
      assert report[i] in report;
    }
    forall x ensures x in (set r <- longer :: r.runId) <==> x in done || x == id {
      if x in done {
        var r :| r in report && r.runId == x;
        assert r in longer;
      }
    }
  }

  ghost predicate StaleRuns(db: Db, cutoff: Time, ids: set<string>) {
    ids == set id <- db.runs | Stale(db.runs[id], cutoff)
  }

  const SCANNED_STATES: set<State> := RECOVERABLE_STATES + STALE_NO_RECOVERY_PATH_STATES

  /** The stale Runs are those moved so far and those still to come. */
  ghost predicate Progress(before: Db, cutoff: Time, todo: set<string>, moved: set<string>) {
    && todo <= before.runs.Keys && moved <= before.runs.Keys && moved !! todo
    && (forall id <- moved :: Stale(before.runs[id], cutoff))
    && (forall id <- before.runs :: Stale(before.runs[id], cutoff) ==> id in moved || id in todo)
    && (forall id <- todo :: before.runs[id].state in SCANNED_STATES)
  }

  /** Run alone, the scan never raises, moves every stale Run of a scanned state
      to RecoveryRequired or Failed as its state demands, touches no other Run or
      journal, and reports exactly the Runs it moved. */
  method RunRecoveryScan(db: Database, now: Time, staleAfter: int, ids: string -> Ids)
    returns (report: seq<RecoveryOutcome>, ghost moved: set<string>)
    requires db.Valid() && FreshIds(db.committed, ids)
    modifies db`committed, db`working
    ensures db.Valid()
    ensures StaleRuns(old(db.committed), now - staleAfter, moved)
    ensures moved == set id <- old(db.committed).runs | LongUntouched(old(db.committed).runs[id], now, staleAfter)
    ensures Scanned(old(db.committed), db.committed, moved, ids, now)
    ensures Reported(report, moved, old(db.committed), now)
  {
    hide Scanned, Reported, Progress, FreshIds, Consistent, RecoveredRun, StaleRuns;
    report := [];
    var cutoff := now - staleAfter;
    var rows := db.ListRunsByStates(SCANNED_STATES);
    moved := {};
    forall id <- db.committed.runs ensures db.committed.runs[id].runId == id {
      StoredUnderOwnId(db.committed, db.initial, id, db.hash);
    }
    NothingScanned(db.committed, rows, cutoff, ids, now);
    for i := 0 to |rows|
      invariant db.Valid()
      invariant Progress(old(db.committed), cutoff, IdsFrom(rows, i), moved)
      invariant Scanned(old(db.committed), db.committed, moved, ids, now)
      invariant Reported(report, moved, old(db.committed), now)
    {
      var run := rows[i];
      assert run in rows;
      IdsStep(rows, i);
      ProgressStep(old(db.committed), cutoff, IdsFrom(rows, i + 1), moved, run);
      if run.updatedAt <= cutoff {
        var outcome := RecoverOne(db, run, now, ids(run.runId), old(db.committed), moved, ids);
        ReportStep(report, moved, old(db.committed), run.runId, now);
        report := report + [RecoveryOutcome(run.runId, run.state, outcome)];
        moved := moved + {run.runId};
      }
    }
    AllScanned(old(db.committed), cutoff, IdsFrom(rows, |rows|), moved);
    StaleMeans(old(db.committed), now, staleAfter, moved);
  }

  /** A Run that was left working: in none of the states it starts, waits or ends in,
      and not moved for at least so long. */
  predicate LongUntouched(run: Run, now: Time, staleAfter: int) {
    && run.state != Created && !IsTerminal(run.state) && !IsWaiting(run.state)
    && now - run.updatedAt >= staleAfter
  }

  lemma StaleMeans(db: Db, now: Time, staleAfter: int, moved: set<string>)
    requires StaleRuns(db, now - staleAfter, moved)
    ensures moved == set id <- db.runs | LongUntouched(db.runs[id], now, staleAfter)
  {
  }

  lemma NothingScanned(db: Db, rows: seq<Run>, cutoff: Time, ids: string -> Ids, now: Time)
    requires FreshIds(db, ids)
    requires forall run <- rows :: run.runId in db.runs && db.runs[run.runId] == run && run.state in SCANNED_STATES
    requires forall id <- db.runs :: db.runs[id].state in SCANNED_STATES ==> db.runs[id] in rows
    requires forall id <- db.runs :: db.runs[id].runId == id
    ensures Progress(db, cutoff, IdsFrom(rows, 0), {}) && Scanned(db, db, {}, ids, now) && Reported([], {}, db, now)
  {
    forall id <- IdsFrom(rows, 0) ensures id in db.runs && db.runs[id].state in SCANNED_STATES {
      var j :| 0 <= j < |rows| && rows[j].runId == id;
      assert rows[j] in rows;
    }
    forall id <- db.runs | Stale(db.runs[id], cutoff) ensures id in IdsFrom(rows, 0) {
      var j :| 0 <= j < |rows| && rows[j] == db.runs[id];
      assert rows[j].runId == id;
    }
  }

  lemma ProgressStep(before: Db, cutoff: Time, todo: set<string>, moved: set<string>, run: Run)
    requires run.runId in before.runs && before.runs[run.runId] == run && run.runId !in todo
    requires Progress(before, cutoff, {run.runId} + todo, moved)
    ensures run.runId !in moved && run.state in SCANNED_STATES
    ensures Progress(before, cutoff, todo, if run.updatedAt <= cutoff then moved + {run.runId} else moved)
  {
    assert run.runId in {run.runId} + todo;
  }

  lemma AllScanned(before: Db, cutoff: Time, todo: set<string>, moved: set<string>)
    requires Progress(before, cutoff, todo, moved) && todo == {}
    ensures StaleRuns(before, cutoff, moved)
  {
  }

  function IdsFrom(rows: seq<Run>, i: nat): set<string> {
    set j | i <= j < |rows| :: rows[j].runId
  }

  lemma IdsStep(rows: seq<Run>, i: nat)
    requires i < |rows| && forall j, k :: 0 <= j < k < |rows| ==> rows[j].runId != rows[k].runId
    ensures IdsFrom(rows, i) == {rows[i].runId} + IdsFrom(rows, i + 1) && rows[i].runId !in IdsFrom(rows, i + 1)
  {
  }

  /** A second scan at the same time finds nothing to do. */
  lemma SecondScanFindsNothing(before: Db, after: Db, moved: set<string>, ids: string -> Ids, now: Time, cutoff: Time)
    requires StaleRuns(before, cutoff, moved) && Scanned(before, after, moved, ids, now)
    ensures StaleRuns(after, cutoff, {})
  {
    hide Recovered, RowsOf;
  }

  function RecoveryRequest(run: Run, now: Time, drawn: Ids): Request {
    var recoverable := run.state in RECOVERABLE_STATES;
    Request(
      run.runId, if recoverable then RecoveryRequired else Failed, now, run.stateVersion,
      Harness("recovery-coordinator"), "recovery-scan-" + run.runId,
      if recoverable then None
      else Some(FailureRecord(drawn.failureId, run.runId, During(run.state), RunTimeout, true, "stale", now)),
      if recoverable then Some(PendingAction(RecoveryDecisionPending, "stale", now)) else None,
      drawn.entryId)
  }

  lemma StillFresh(before: Db, db: Db, done: set<string>, ids: string -> Ids, id: string, now: Time)
    requires Scanned(before, db, done, ids, now) && id in before.runs && id !in done
    ensures id in db.runs && db.runs[id] == before.runs[id]
    ensures forall e <- db.journal :: e.body.entryId != ids(id).entryId
    ensures ids(id).failureId !in db.failures
  {
  }

  lemma RecoveryRequestCommits(before: Db, db: Db, done: set<string>, ids: string -> Ids, run: Run, now: Time)
    requires Scanned(before, db, done, ids, now) && FreshIds(before, ids)
    requires run.runId in before.runs && run.runId !in done && before.runs[run.runId] == run
    requires run.state in SCANNED_STATES
    ensures var q := RecoveryRequest(run, now, ids(run.runId));
            Commits(db, q) && MovedRun(run, q) == RecoveredRun(run, now)
  {
    hide Scanned, FreshIds;
    StillFresh(before, db, done, ids, run.runId, now);
    ScannedStates(run.state);
  }

  lemma UnfinishedRun(db: Db, initial: map<string, Run>, id: string, h: Hasher)
    requires Consistent(db, initial, h) && id in db.runs
    ensures db.runs[id].disposition.Some? <==> IsTerminal(db.runs[id].state)
    ensures db.runs[id].runId == id
  {
    assert RunFrom(db, initial, id, h);
    ConsistentRunShape(db, initial[id], h);
    StoredUnderOwnId(db, initial, id, h);
  }

  /** The loop body of the scan for one stale Run. */
  method RecoverOne(db: Database, run: Run, now: Time, drawn: Ids, ghost before: Db, ghost done: set<string>,
                    ghost ids: string -> Ids)
    returns (moved: Run)
    requires db.Valid() && run.runId in before.runs && run.runId !in done
    requires Scanned(before, db.committed, done, ids, now) && FreshIds(before, ids)
    requires before.runs[run.runId] == run && drawn == ids(run.runId)
    requires run.state in SCANNED_STATES
    modifies db`committed, db`working
    ensures db.Valid() && moved == RecoveredRun(run, now)
    ensures Scanned(before, db.committed, done + {run.runId}, ids, now)
  {
    hide Consistent, Recovered, Scanned, RowsOf, Written, Tells, FreshIds, NextRow, RecoveredRun;
    StillFresh(before, db.committed, done, ids, run.runId, now);
    UnfinishedRun(db.committed, db.initial, run.runId, db.hash);
    var q := RecoveryRequest(run, now, drawn);
    RecoveryRequestCommits(before, db.committed, done, ids, run, now);
    ScanStep(before, db.committed, done, ids, now, q, db.hash);
    var r := db.ApplyTransition(q, 9);
    moved := r.outcome.run;
  }
}
