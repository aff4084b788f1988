/** Any number of processes working on one database: the pipeline, the CLI
    commands and the recovery scan all read a Run, decide, and then try to move
    it. Their steps interleave statement by statement, and any of them may die
    before any statement. */
module Interleaving {
  import opened Wrappers
  import opened Lifecycle
  import opened Journal
  import opened Database

  /* ---- One transaction as a program counter ---------------------------------- */

  /** An open transaction: the next statement, the private copy of the tables,
      and the local variables filled so far. */
  datatype Txn = Txn(
    q: Request, pc: nat, working: Db,
    outcome: Option<Outcome>, previousHash: Option<Digest>, sequence: nat)

  datatype Effect = Continue(txn: Txn) | Finish(db: Db) | Abort(error: ApplyError)

  function BeginTxn(db: Db, q: Request): Txn {
    Txn(q, 1, db, None, None, 0)
  }

  /** The statement at `pc`: SELECT run with the checks, SELECT head hash, SELECT
      next sequence, INSERT journal row, UPDATE run, INSERT failure, COMMIT. */
  function Execute(t: Txn, h: Hasher): (e: Effect)
    ensures e.Continue? ==> t.pc < 7 && e.txn.pc == t.pc + 1 && e.txn.q == t.q
  {
    match t.pc
    case 1 =>
      if t.q.runId !in t.working.runs then Abort(RunNotFound)
      else
        var run := t.working.runs[t.q.runId];
        if run.stateVersion != t.q.expectedVersion then Abort(VersionMismatch)
        else
          (match TransitionRun(run, t.q.target, t.q.now, t.q.failure, t.q.pending)
           case Failure(reason) => Abort(Refused(reason))
           case Success(out) => Continue(t.(pc := 2, outcome := Some(out))))
    case 2 => Continue(t.(pc := 3, previousHash := HeadHash(t.working.journal, t.q.runId)))
    case 3 => Continue(t.(pc := 4, sequence := NextSequence(t.working.journal, t.q.runId)))
    case 4 =>
      if t.outcome.None? || t.q.runId !in t.working.runs then Abort(RunNotFound)
      else
        var row := BuildEntry(t.q, t.working.runs[t.q.runId].state, t.outcome.value.run.stateVersion,
                              t.previousHash, t.sequence, h);
        (match InsertEntry(t.working, row)
         case None => Abort(ConstraintFailed)
         case Some(db) => Continue(t.(pc := 5, working := db)))
    case 5 =>
      if t.outcome.None? then Abort(RunNotFound)
      else
        var (db, rowcount) := UpdateRun(t.working, t.q.runId, t.q.expectedVersion, t.outcome.value.run);
        if rowcount != 1 then Abort(ChangedUnderneath) else Continue(t.(pc := 6, working := db))
    case 6 =>
      if t.q.failure.None? then Continue(t.(pc := 7))
      else
        (match InsertFailure(t.working, t.q.failure.value)
         case None => Abort(ConstraintFailed)
         case Some(db) => Continue(t.(pc := 7, working := db)))
    case _ => Finish(t.working)
  }

  /** What the transaction will do if it is left alone from here on. */
  function RunToEnd(t: Txn, h: Hasher): Result<Db, ApplyError>
    decreases 7 - t.pc
  {
    match Execute(t, h)
    case Continue(t') => RunToEnd(t', h)
    case Finish(db) => Success(db)
    case Abort(error) => Failure(error)
  }

  /** The transaction of an accepted request once it has read all it needs. */
  function ReadAll(db: Db, q: Request): Txn
    requires q.runId in db.runs
  {
    Txn(q, 4, db, Some(Outcome(MovedRun(db.runs[q.runId], q), q.pending, q.failure)),
        HeadHash(db.journal, q.runId), NextSequence(db.journal, q.runId))
  }

  predicate Allowed(db: Db, q: Request) {
    && q.runId in db.runs
    && db.runs[q.runId].stateVersion == q.expectedVersion
    && Accepts(db.runs[q.runId].state, q.target, q.failure.Some?, q.pending.Some?)
  }

  lemma ReadsFirst(db: Db, q: Request, h: Hasher)
    ensures if Allowed(db, q) then RunToEnd(BeginTxn(db, q), h) == RunToEnd(ReadAll(db, q), h)
            else !Commits(db, q) && RunToEnd(BeginTxn(db, q), h) == Failure(Refusal(db, q))
  {
    var t1 := BeginTxn(db, q);
    if Allowed(db, q) {
      var t2 := Execute(t1, h).txn;
      var t3 := Execute(t2, h).txn;
      assert Execute(t3, h) == Continue(ReadAll(db, q));
      assert RunToEnd(t1, h) == RunToEnd(t2, h) == RunToEnd(t3, h);
    } else {
      assert Execute(t1, h) == Abort(Refusal(db, q));
    }
  }

  lemma ThenWrites(db: Db, initial: map<string, Run>, q: Request, h: Hasher)
    requires Consistent(db, initial, h) && Allowed(db, q)
    ensures RunToEnd(ReadAll(db, q), h)
            == if Commits(db, q) then Success(After(db, q, h)) else Failure(Refusal(db, q))
  {
    hide RunFrom, ForeignKeys, RowsOf;
    StatementsBuildAfter(db, initial, q, h);
    var t4 := ReadAll(db, q);
    var e4 := Execute(t4, h);
    assert InsertEntry(db, StatementRow(db, q, t4.outcome.value.run.stateVersion, h)).None? <==> e4.Abort?;
    if e4.Continue? {
      var e5 := Execute(e4.txn, h);
      var e6 := Execute(e5.txn, h);
      assert RunToEnd(t4, h) == RunToEnd(e4.txn, h) == RunToEnd(e5.txn, h);
      if e6.Continue? {
        assert RunToEnd(e6.txn, h) == Success(e6.txn.working);
      }
    }
  }

  /** Left alone, a transaction does exactly what its request means. */
  lemma TransactionMeaning(db: Db, initial: map<string, Run>, q: Request, h: Hasher)
    requires Consistent(db, initial, h)
    ensures RunToEnd(BeginTxn(db, q), h)
            == if Commits(db, q) then Success(After(db, q, h)) else Failure(Refusal(db, q))
  {
    ReadsFirst(db, q, h);
    if Allowed(db, q) {
      ThenWrites(db, initial, q, h);
    }
  }

  /* ---- The world ----------------------------------------------------------------- */

  datatype Process = Idle | Observed(run: Run) | InTxn(txn: Txn)

  /** What has been committed so far, in commit order. */
  datatype Op = Inserted(run: Run) | Applied(q: Request)

  /** `lock` is SQLite's write lock, taken by BEGIN IMMEDIATE. */
  datatype World = World(
    committed: Db, lock: Option<nat>, processes: map<nat, Process>,
    initial: map<string, Run>, log: seq<Op>)

  const START := World(EMPTY_DB, None, map[], map[], [])

  datatype Step =
    | Insert(run: Run)
    | Observe(p: nat, runId: string)
    | Begin(p: nat, target: State, now: Time, actor: Actor, correlationId: string,
            failure: Option<FailureRecord>, pending: Option<PendingAction>, entryId: string)
    | Statement(p: nat)
    | Crash(p: nat)

  /** The request a process makes about the Run it has observed. */
  function RequestOf(s: Step, run: Run): (q: Request)
    requires s.Begin?
    ensures OwnFailure(q)
  {
    Request(run.runId, s.target, s.now, run.stateVersion, s.actor, s.correlationId,
            (match s.failure case None => None case Some(f) => Some(f.(runId := run.runId))),
            s.pending, s.entryId)
  }

  /** One step; a step that is not enabled changes nothing. */
  function Next(w: World, s: Step, h: Hasher): World {
    match s
    case Insert(run) =>
      if w.lock.Some? || !Fresh(run) || run.runId in w.committed.runs then w
      else w.(committed := WithRun(w.committed, run), initial := w.initial[run.runId := run],
              log := w.log + [Inserted(run)])
    case Observe(p, id) =>
      if w.lock == Some(p) || id !in w.committed.runs then w
      else w.(processes := w.processes[p := Observed(w.committed.runs[id])])
    case Begin(p, _, _, _, _, _, _, _) =>
      if w.lock.Some? || p !in w.processes || !w.processes[p].Observed? then w
      else
        var txn := BeginTxn(w.committed, RequestOf(s, w.processes[p].run));
        w.(lock := Some(p), processes := w.processes[p := InTxn(txn)])
    case Statement(p) =>
      if w.lock != Some(p) || p !in w.processes || !w.processes[p].InTxn? then w
      else
        var txn := w.processes[p].txn;
        (match Execute(txn, h)
         case Continue(txn') => w.(processes := w.processes[p := InTxn(txn')])
         case Finish(db) => w.(committed := db, lock := None, processes := w.processes[p := Idle],
                               log := w.log + [Applied(txn.q)])
         case Abort(_) => w.(lock := None, processes := w.processes[p := Idle]))
    case Crash(p) =>
      w.(lock := if w.lock == Some(p) then None else w.lock, processes := w.processes - {p})
  }

  function RunAll(steps: seq<Step>, h: Hasher): World {
    if steps == [] then START
    else Next(RunAll(steps[..|steps| - 1], h), steps[|steps| - 1], h)
  }

  /* ---- Serial runs of the kernel --------------------------------------------------- */

  predicate OpCommits(db: Db, op: Op) {
    match op
    case Inserted(run) => Fresh(run) && run.runId !in db.runs
    case Applied(q) => Commits(db, q) && OwnFailure(q)
  }

  function OpAfter(db: Db, op: Op, h: Hasher): Db
    requires OpCommits(db, op)
  {
    match op
    case Inserted(run) => WithRun(db, run)
    case Applied(q) => After(db, q, h)
  }

  /** A serial run over the empty database: each operation commits on the tables
      its predecessors left, or the run as a whole is not one. */
  function SerialRun(log: seq<Op>, h: Hasher): Option<Db> {
    if log == [] then Some(EMPTY_DB)
    else
      var n := |log| - 1;
      match SerialRun(log[..n], h)
      case None => None
      case Some(db) => if OpCommits(db, log[n]) then Some(OpAfter(db, log[n], h)) else None
  }

  /* ---- The invariant ------------------------------------------------------------------ */

  ghost predicate ProcessFits(w: World, p: nat, h: Hasher)
    requires p in w.processes
  {
    match w.processes[p]
    case Idle => true
    case Observed(run) => Remembered(w.committed, run)
    case InTxn(txn) =>
      && w.lock == Some(p)
      && OwnFailure(txn.q)
      && RunToEnd(txn, h) == RunToEnd(BeginTxn(w.committed, txn.q), h)
  }

  ghost predicate Inv(w: World, h: Hasher) {
    && Consistent(w.committed, w.initial, h)
    && SerialRun(w.log, h) == Some(w.committed)
    && (forall p <- w.processes :: ProcessFits(w, p, h))
  }

  lemma {:induction false} EveryWorldIsConsistent(steps: seq<Step>, h: Hasher)
    ensures Inv(RunAll(steps, h), h)
  {
    if steps == [] {
    } else {
      EveryWorldIsConsistent(steps[..|steps| - 1], h);
      StepKeepsInv(RunAll(steps[..|steps| - 1], h), steps[|steps| - 1], h);
    }
  }

  lemma KeptInMind(db: Db, run: Run, op: Op, h: Hasher)
    requires Remembered(db, run) && OpCommits(db, op)
    ensures Remembered(OpAfter(db, op, h), run)
  {
    if op.Applied? {
      MovesKeepRemembered(db, run, op.q, h);
    }
  }

  /** Committing an operation disturbs no process that holds no lock. */
  lemma BystandersFit(w: World, w': World, op: Op, p: nat, h: Hasher)
    requires p in w.processes && ProcessFits(w, p, h) && !w.processes[p].InTxn?
    requires OpCommits(w.committed, op) && w'.committed == OpAfter(w.committed, op, h)
    requires p in w'.processes && w'.processes[p] == w.processes[p]
    ensures ProcessFits(w', p, h)
  {
    if w.processes[p].Observed? {
      KeptInMind(w.committed, w.processes[p].run, op, h);
    }
  }

  lemma SerialAppend(log: seq<Op>, db: Db, op: Op, h: Hasher)
    requires SerialRun(log, h) == Some(db) && OpCommits(db, op)
    ensures SerialRun(log + [op], h) == Some(OpAfter(db, op, h))
  {
    assert (log + [op])[..|log|] == log;
  }

  /** A transaction that reaches its COMMIT commits what its request means. */
  lemma CommitPoint(w: World, p: nat, h: Hasher)
    requires Inv(w, h) && p in w.processes && w.processes[p].InTxn?
    requires Execute(w.processes[p].txn, h).Finish?
    ensures var q := w.processes[p].txn.q;
            && w.lock == Some(p) && OwnFailure(q) && Commits(w.committed, q)
            && Execute(w.processes[p].txn, h).db == After(w.committed, q, h)
  {
    var txn := w.processes[p].txn;
    assert ProcessFits(w, p, h);
    TransactionMeaning(w.committed, w.initial, txn.q, h);
    assert RunToEnd(txn, h) == Success(Execute(txn, h).db);
  }

  lemma CommitKeepsInv(w: World, p: nat, h: Hasher)
    requires Inv(w, h) && p in w.processes && w.processes[p].InTxn?
    requires Execute(w.processes[p].txn, h).Finish?
    ensures Inv(Next(w, Statement(p), h), h)
  {
    hide RunFrom;
    var q := w.processes[p].txn.q;
    var w' := Next(w, Statement(p), h);
    CommitPoint(w, p, h);
    CommitKeepsConsistent(w.committed, w.initial, q, h);
    SerialAppend(w.log, w.committed, Applied(q), h);
    forall o <- w'.processes ensures ProcessFits(w', o, h) {
      if o != p {
        assert ProcessFits(w, o, h);
        BystandersFit(w, w', Applied(q), o, h);
      }
    }
  }

  lemma InsertKeepsInv(w: World, run: Run, h: Hasher)
    requires Inv(w, h) && w.lock.None? && Fresh(run) && run.runId !in w.committed.runs
    ensures Inv(Next(w, Insert(run), h), h)
  {
    var w' := Next(w, Insert(run), h);
    InsertKeepsConsistent(w.committed, w.initial, run, h);
    SerialAppend(w.log, w.committed, Inserted(run), h);
    forall o <- w'.processes ensures ProcessFits(w', o, h) {
      assert ProcessFits(w, o, h);
      BystandersFit(w, w', Inserted(run), o, h);
    }
  }

  /** A statement that is not a commit: the transaction goes on, or is undone. */
  lemma StatementFits(w: World, p: nat, o: nat, h: Hasher)
    requires Inv(w, h) && o in w.processes && w.lock == Some(p) && p in w.processes && w.processes[p].InTxn?
    requires !Execute(w.processes[p].txn, h).Finish?
    ensures var w' := Next(w, Statement(p), h);
            w'.committed == w.committed && o in w'.processes && ProcessFits(w', o, h)
  {
    assert ProcessFits(w, o, h) && ProcessFits(w, p, h);
  }

  lemma QuietStepKeepsInv(w: World, s: Step, h: Hasher)
    requires Inv(w, h) && !s.Insert?
    requires s.Statement? && s.p in w.processes && w.processes[s.p].InTxn?
             ==> !Execute(w.processes[s.p].txn, h).Finish?
    ensures Inv(Next(w, s, h), h)
  {
    var w' := Next(w, s, h);
    if s.Observe? && s.runId in w.committed.runs {
      StoredUnderOwnId(w.committed, w.initial, s.runId, h);
    }
    forall o <- w'.processes ensures ProcessFits(w', o, h) {
      if o in w.processes {
        assert ProcessFits(w, o, h);
        if s.Statement? && w' != w {
          StatementFits(w, s.p, o, h);
        }
      }
    }
  }

  lemma StepKeepsInv(w: World, s: Step, h: Hasher)
    requires Inv(w, h)
    ensures Inv(Next(w, s, h), h)
  {
    if s.Insert? {
      if w.lock.None? && Fresh(s.run) && s.run.runId !in w.committed.runs {
        InsertKeepsInv(w, s.run, h);
      }
    } else if s.Statement? && s.p in w.processes && w.processes[s.p].InTxn?
              && Execute(w.processes[s.p].txn, h).Finish? {
      CommitPoint(w, s.p, h);
      CommitKeepsInv(w, s.p, h);
    } else {
      QuietStepKeepsInv(w, s, h);
    }
  }

  /* ---- Consequences -------------------------------------------------------------------- */

  /** Linearizability: the tables are those of a serial run of the kernel over
      the committed operations, and a step that commits nothing (a read, a lost
      race, a refused request, a crash anywhere) leaves every table as it was. */
  lemma HistoriesAreSerial(steps: seq<Step>, s: Step, h: Hasher)
    ensures var w, w' := RunAll(steps, h), Next(RunAll(steps, h), s, h);
            && SerialRun(w.log, h) == Some(w.committed)
            && (w'.log == w.log ==> w'.committed == w.committed)
            && (w'.log != w.log ==> |w'.log| == |w.log| + 1 && w'.log[..|w.log|] == w.log)
  {
    hide RunFrom, ForeignKeys, After, WithRun;
    EveryWorldIsConsistent(steps, h);
  }

  /** Among all requests that carry the same observed version of a Run, at most
      one ever commits. */
  lemma OneCommitPerVersion(steps: seq<Step>, i: nat, j: nat, h: Hasher)
    requires var log := RunAll(steps, h).log;
             && i < j < |log| && log[i].Applied? && log[j].Applied? && log[i].q.runId == log[j].q.runId
    ensures var log := RunAll(steps, h).log; log[i].q.expectedVersion < log[j].q.expectedVersion
  {
    EveryWorldIsConsistent(steps, h);
    var w := RunAll(steps, h);
    VersionsOnlyGrow(w.log, w.committed, i, j, h);
  }

  lemma {:induction false} VersionsOnlyGrow(log: seq<Op>, db: Db, i: nat, j: nat, h: Hasher)
    requires SerialRun(log, h) == Some(db)
    requires i < |log| && log[i].Applied? && i < j <= |log|
    ensures log[i].q.runId in db.runs && log[i].q.expectedVersion < db.runs[log[i].q.runId].stateVersion
    ensures j < |log| && log[j].Applied? && log[j].q.runId == log[i].q.runId
            ==> log[i].q.expectedVersion < log[j].q.expectedVersion
    decreases |log|
  {
    var n := |log| - 1;
    if i < n {
      VersionsOnlyGrow(log[..n], SerialRun(log[..n], h).value, i, if j < n then j else n, h);
    }
  }

  /** Exactly what the journal of every Run looks like in every reachable world. */
  lemma JournalsAlwaysReplay(steps: seq<Step>, id: string, h: Hasher)
    requires id in RunAll(steps, h).committed.runs
    ensures var w := RunAll(steps, h);
            var rows := RowsOf(w.committed.journal, id);
            var run := w.committed.runs[id];
            && id in w.initial
            && var init := w.initial[id];
               && Fresh(init) && JournalOf(init, run, rows, h)
               && run.stateVersion == init.stateVersion + |rows|
               && (run.disposition == if IsTerminal(run.state) then Some(run.state) else None)
               && FailureIds(w.committed, id) == LastFailure(rows)
               && |FailureIds(w.committed, id)| == (if run.state == Failed then 1 else 0)
               && (rows != [] ==> (rows[|rows| - 1].body.pending.Some? <==> IsWaiting(run.state)))
  {
    EveryWorldIsConsistent(steps, h);
    var w := RunAll(steps, h);
    assert RunFrom(w.committed, w.initial, id, h);
    var init, rows := w.initial[id], RowsOf(w.committed.journal, id);
    ReplayShape(init, rows);
    if rows != [] {
      assert RowFits(init, rows, |rows| - 1);
    }
  }

  /* ---- Which histories there are ------------------------------------------------------------ */

  function HistoryIn(w: World, id: string): seq<State>
    requires id in w.initial
  {
    History(w.initial[id], RowsOf(w.committed.journal, id))
  }

  lemma RunOneMore(steps: seq<Step>, s: Step, h: Hasher)
    ensures RunAll(steps + [s], h) == Next(RunAll(steps, h), s, h)
  {
    assert (steps + [s])[..|steps|] == steps;
  }

  /** A transaction that is left alone runs to its end. */
  lemma {:induction false} LeftAlone(steps: seq<Step>, p: nat, h: Hasher) returns (more: seq<Step>)
    requires var w := RunAll(steps, h);
             && w.lock == Some(p) && p in w.processes && w.processes[p].InTxn?
             && RunToEnd(w.processes[p].txn, h).Success?
    ensures var w, w' := RunAll(steps, h), RunAll(more, h);
            && w'.lock.None? && w'.initial == w.initial
            && w'.committed == RunToEnd(w.processes[p].txn, h).value
    decreases 7 - RunAll(steps, h).processes[p].txn.pc
  {
    hide RunAll;
    var txn := RunAll(steps, h).processes[p].txn;
    more := steps + [Statement(p)];
    RunOneMore(steps, Statement(p), h);
    if Execute(txn, h).Continue? {
      more := LeftAlone(more, p, h);
    }
  }

  /** What a request on behalf of the Run `r` needs to commit. */
  function Move(w: World, target: State, n: nat): Step {
    Begin(0, target, 0, Harness("actor"), "correlation",
          if target == Failed then Some(FailureRecord("f", "r", During(Created), ExecutionFailed, false, "", 0))
          else None,
          if IsWaiting(target) then Some(PendingAction(ApprovalPending, "pending", 0)) else None,
          Tally(n))
  }

  /** The world has taken the Run `r` through `s`, one journal row a step. */
  ghost predicate Reached(w: World, s: seq<State>) {
    && s != [] && w.lock.None? && "r" in w.initial && "r" in w.committed.runs
    && w.initial["r"].state == s[0]
    && HistoryIn(w, "r") == s
    && (forall e <- w.committed.journal :: |e.body.entryId| < |s|)
    && (s[|s| - 1] != Failed ==> w.committed.failures == map[])
  }

  lemma MoveCommits(w: World, s: seq<State>, target: State, h: Hasher)
    requires Inv(w, h) && Reached(w, s) && CanTransition(s[|s| - 1], target)
    ensures var q := RequestOf(Move(w, target, |s|), w.committed.runs["r"]);
            Commits(w.committed, q) && q.runId == "r"
  {
    hide RowsOf;
    var init, rows := w.initial["r"], RowsOf(w.committed.journal, "r");
    assert RunFrom(w.committed, w.initial, "r", h);
    ConsistentRunShape(w.committed, init, h);
    StoredUnderOwnId(w.committed, w.initial, "r", h);
    assert History(init, rows)[|rows|] == w.committed.runs["r"].state;
  }

  lemma MoveReaches(w: World, w': World, s: seq<State>, target: State, h: Hasher)
    requires Inv(w, h) && Reached(w, s) && CanTransition(s[|s| - 1], target)
    requires var q := RequestOf(Move(w, target, |s|), w.committed.runs["r"]);
             && Commits(w.committed, q) && q.runId == "r"
             && w'.committed == After(w.committed, q, h)
    requires w'.lock.None? && w'.initial == w.initial
    ensures Reached(w', s + [target])
  {
    hide Inv, Commits, RowsOf, History;
    var q := RequestOf(Move(w, target, |s|), w.committed.runs["r"]);
    var init, rows := w.initial["r"], RowsOf(w.committed.journal, "r");
    var row := NextRow(w.committed.runs["r"], rows, q, h);
    RowsOfAppend(w.committed.journal, row, "r");
    HistoryNext(init, rows, row);
    EntriesFromFinished(s[|s| - 1], target);
    forall e <- w'.committed.journal ensures |e.body.entryId| < |s| + 1 {
      assert e in w.committed.journal || e == row;
    }
  }

  lemma HistoryNext(init: Run, rows: seq<Entry>, row: Entry)
    ensures History(init, rows + [row]) == History(init, rows) + [row.body.stateAfter]
  {
  }

  /** Every legal history of an unfinished Run is the journal of some world, so that
      together with `JournalsAreLegalHistories` the journals are exactly those. */
  lemma {:induction false} EveryHistoryIsReached(s: seq<State>, h: Hasher) returns (steps: seq<Step>)
    requires Legal(s) && s != [] && !IsTerminal(s[0])
    ensures Reached(RunAll(steps, h), s)
  {
    hide Reached, Inv, Legal, RunAll, Commits, After;
    var n := |s| - 1;
    if n == 0 {
      steps := [Insert(Run("r", "repository", s[0], 0, BudgetUsage(0, 0, 0), None, 0, 0))];
      InsertReaches(steps, s, h);
    } else {
      PrefixIsLegal(s);
      steps := EveryHistoryIsReached(s[..n], h);
      var w := RunAll(steps, h);
      EveryWorldIsConsistent(steps, h);
      steps := MoveOn(steps, s[..n], s[n], h);
      MoveCommits(w, s[..n], s[n], h);
      MoveReaches(w, RunAll(steps, h), s[..n], s[n], h);
      assert s == s[..n] + [s[n]];
    }
  }

  lemma PrefixIsLegal(s: seq<State>)
    requires Legal(s) && |s| > 1
    ensures Legal(s[..|s| - 1]) && CanTransition(s[|s| - 2], s[|s| - 1])
  {
  }

  lemma InsertReaches(steps: seq<Step>, s: seq<State>, h: Hasher)
    requires |s| == 1 && !IsTerminal(s[0])
    requires steps == [Insert(Run("r", "repository", s[0], 0, BudgetUsage(0, 0, 0), None, 0, 0))]
    ensures Reached(RunAll(steps, h), s)
  {
    RunOneMore([], steps[0], h);
    assert [] + steps == steps;
  }

  /** A process reads the Run, asks for the next state, and is left alone. */
  lemma MoveOn(steps: seq<Step>, s: seq<State>, target: State, h: Hasher) returns (more: seq<Step>)
    requires Reached(RunAll(steps, h), s) && CanTransition(s[|s| - 1], target)
    ensures var w, w' := RunAll(steps, h), RunAll(more, h);
            var q := RequestOf(Move(w, target, |s|), w.committed.runs["r"]);
            && w'.lock.None? && w'.initial == w.initial
            && Commits(w.committed, q) && w'.committed == After(w.committed, q, h)
  {
    hide RunAll, RunToEnd, After, Commits, HistoryIn, Consistent, Next;
    var w := RunAll(steps, h);
    var s1, s2 := Observe(0, "r"), Move(w, target, |s|);
    EveryWorldIsConsistent(steps, h);
    MoveCommits(w, s, target, h);
    RunOneMore(steps, s1, h);
    RunOneMore(steps + [s1], s2, h);
    AskedFor(w, s2, h);
    TransactionMeaning(w.committed, w.initial, RequestOf(s2, w.committed.runs["r"]), h);
    more := LeftAlone(steps + [s1] + [s2], 0, h);
  }

  lemma AskedFor(w: World, s: Step, h: Hasher)
    requires w.lock.None? && "r" in w.committed.runs && s.Begin? && s.p == 0
    ensures var w' := Next(Next(w, Observe(0, "r"), h), s, h);
            && w'.committed == w.committed && w'.initial == w.initial && w'.lock == Some(0) && 0 in w'.processes
            && w'.processes[0] == InTxn(BeginTxn(w.committed, RequestOf(s, w.committed.runs["r"])))
  {
  }

  /* ---- What a merged Run has done --------------------------------------------------------------- */

  /** In every reachable world a merged Run that was created as Created went
      through the whole chain, or an operator resumed it further on in the chain
      than it had come. */
  lemma MergedRunsDidTheWork(steps: seq<Step>, id: string, h: Hasher)
    requires var w := RunAll(steps, h);
             && id in w.committed.runs && w.committed.runs[id].state == ReadyForMerge
             && id in w.initial && w.initial[id].state == Created
    ensures var s := HistoryIn(RunAll(steps, h), id);
            Visits(MERGE_CHAIN, |MERGE_CHAIN|, s, 1, |s|) || exists i: nat :: HarmedAfter(s, i)
  {
    hide Visits, Legal;
    EveryWorldIsConsistent(steps, h);
    var w := RunAll(steps, h);
    assert RunFrom(w.committed, w.initial, id, h);
    JournalsAreLegalHistories(w.committed, w.initial[id], h);
    MergeRepeatsTheChain(HistoryIn(w, id), 0);
  }

  /** A reachable world with a merged Run, created as Created and resumed only as
      `allowed` lists. */
  ghost predicate MergedIn(steps: seq<Step>, id: string, allowed: set<(State, State)>, h: Hasher) {
    var w := RunAll(steps, h);
    && id in w.initial && MergedFrom(HistoryIn(w, id), 0, allowed) && HistoryIn(w, id)[0] == Created
  }

  /** Whatever resumptions operators may ask for, every merged Run of every
      reachable world went through the whole chain if and only if each of them is
      harmless. */
  lemma MergedRunsDidTheWorkExactly(allowed: set<(State, State)>, h: Hasher)
    requires forall p <- allowed :: CanTransition(p.0, RecoveryRequired) && p.1 in RECOVERY_RESTART_TARGETS
    ensures (forall steps, id :: MergedIn(steps, id, allowed, h) ==>
               var s := HistoryIn(RunAll(steps, h), id); Visits(MERGE_CHAIN, |MERGE_CHAIN|, s, 1, |s|))
            <==> forall p <- allowed :: Harmless(p.0, p.1)
  {
    hide Visits, MergedFrom, Harmless, ShortCut, RunAll, HistoryIn;
    if forall p <- allowed :: Harmless(p.0, p.1) {
      ChainRepeatsExactly(allowed);
    } else {
      var p :| p in allowed && !Harmless(p.0, p.1);
      ShortCutSkips(p.0, p.1);
      var steps := WorldOf(ShortCut(p.0, p.1), p, allowed, h);
    }
  }

  lemma WorldOf(s: seq<State>, p: (State, State), allowed: set<(State, State)>, h: Hasher) returns (steps: seq<Step>)
    requires MergedFrom(s, 0, {p}) && p in allowed && s[0] == Created
    ensures MergedIn(steps, "r", allowed, h) && HistoryIn(RunAll(steps, h), "r") == s
  {
    steps := EveryHistoryIsReached(s, h);
  }
}
