/** The Run table, the hash-chained journal and the failure table, and the one
    transaction that moves a Run (persistence/sqlite.py). */
module Journal {
  import opened Wrappers
  import opened Lifecycle

  type Digest = string

  /** Who acts: the harness itself or a user. */
  datatype Actor = Harness(id: string) | User(id: string)

  /** A journal row without its own hash, which is what the hash covers. */
  datatype EntryBody = EntryBody(
    sequence: nat, entryId: string, runId: string, timestamp: Time,
    actor: Actor, correlationId: string,
    stateBefore: State, stateAfter: State, stateVersion: nat,
    pending: Option<PendingAction>, failureId: Option<string>,
    previousHash: Option<Digest>)

  datatype Entry = Entry(body: EntryBody, hash: Digest)

  type Hasher = EntryBody -> Digest

  /** The tables. Journal rows of all Runs share one table, in insertion order. */
  datatype Db = Db(runs: map<string, Run>, journal: seq<Entry>, failures: map<string, FailureRecord>)

  const EMPTY_DB := Db(map[], [], map[])

  /** The arguments of one `apply_transition` call; `entryId` is the fresh
      identifier the new journal row gets. */
  datatype Request = Request(
    runId: string, target: State, now: Time, expectedVersion: nat,
    actor: Actor, correlationId: string,
    failure: Option<FailureRecord>, pending: Option<PendingAction>, entryId: string)

  datatype ApplyError =
    | RunNotFound | VersionMismatch | Refused(reason: IllegalTransition)
    | ConstraintFailed | ChangedUnderneath
    | Locked // another writer held the database for longer than the busy timeout

  datatype ApplyResult = Committed(outcome: Outcome) | RolledBack(error: ApplyError) | Crashed

  /* ---- Single statements -------------------------------------------------- */

  /** SELECT ... WHERE run_id = ?, in insertion order. */
  function RowsOf(journal: seq<Entry>, id: string): seq<Entry> {
    if journal == [] then []
    else
      var n := |journal| - 1;
      var earlier := RowsOf(journal[..n], id);
      if journal[n].body.runId == id then earlier + [journal[n]] else earlier
  }

  /** The row of a Run with the largest sequence number, if it has any row. */
  function MaxRow(journal: seq<Entry>, id: string): Option<Entry> {
    if journal == [] then None
    else
      var n := |journal| - 1;
      var best := MaxRow(journal[..n], id);
      var row := journal[n];
      if row.body.runId == id && (best.None? || best.value.body.sequence < row.body.sequence)
      then Some(row) else best
  }

  function HeadHash(journal: seq<Entry>, id: string): Option<Digest> {
    match MaxRow(journal, id)
    case None => None
    case Some(row) => Some(row.hash)
  }

  function NextSequence(journal: seq<Entry>, id: string): nat {
    match MaxRow(journal, id)
    case None => 0
    case Some(row) => row.body.sequence + 1
  }

  function InsertEntry(db: Db, row: Entry): Option<Db> {
    if exists e <- db.journal :: e.body.entryId == row.body.entryId
                            || (e.body.runId == row.body.runId && e.body.sequence == row.body.sequence)
    then None
    else Some(db.(journal := db.journal + [row]))
  }

  /** UPDATE runs ... WHERE run_id = ? AND state_version = ?, with its rowcount. */
  function UpdateRun(db: Db, id: string, expectedVersion: nat, run: Run): (Db, nat) {
    if id in db.runs && db.runs[id].stateVersion == expectedVersion then
      var row := db.runs[id].(state := run.state, stateVersion := run.stateVersion,
                              disposition := run.disposition, updatedAt := run.updatedAt);
      (db.(runs := db.runs[id := row]), 1)
    else (db, 0)
  }

  function InsertFailure(db: Db, failure: FailureRecord): Option<Db> {
    if failure.failureId in db.failures || failure.runId !in db.runs then None
    else Some(db.(failures := db.failures[failure.failureId := failure]))
  }

  function BuildEntry(
    q: Request, before: State, version: nat, previousHash: Option<Digest>, sequence: nat, h: Hasher
  ): Entry {
    var body := EntryBody(
                  sequence, q.entryId, q.runId, q.now, q.actor, q.correlationId,
                  before, q.target, version, q.pending,
                  if q.failure.Some? then Some(q.failure.value.failureId) else None, previousHash);
    Entry(body, h(body))
  }

  /* ---- What a whole transaction means -------------------------------------- */

  /** Exactly when a request commits. */
  predicate Commits(db: Db, q: Request) {
    && q.runId in db.runs
    && db.runs[q.runId].stateVersion == q.expectedVersion
    && Accepts(db.runs[q.runId].state, q.target, q.failure.Some?, q.pending.Some?)
    && (forall e <- db.journal :: e.body.entryId != q.entryId)
    && (q.failure.Some? ==>
          q.failure.value.failureId !in db.failures && q.failure.value.runId in db.runs)
  }

  /** The row a Run has after a committed request. */
  function MovedRun(run: Run, q: Request): Run {
    run.(state := q.target, stateVersion := run.stateVersion + 1, updatedAt := q.now,
         disposition := if IsTerminal(q.target) then Some(q.target) else run.disposition)
  }

  /** The row a committed request appends: numbered by how many rows the Run
      already has and linked to the last of them. */
  function NextRow(run: Run, rows: seq<Entry>, q: Request, h: Hasher): Entry {
    BuildEntry(q, run.state, run.stateVersion + 1,
               if rows == [] then None else Some(rows[|rows| - 1].hash), |rows|, h)
  }

  /** The tables after a committed request: one row appended, one Run row
      moved, and the failure record, if any, stored. */
  function After(db: Db, q: Request, h: Hasher): Db
    requires Commits(db, q)
  {
    var run := db.runs[q.runId];
    var row := NextRow(run, RowsOf(db.journal, q.runId), q, h);
    Db(db.runs[q.runId := MovedRun(run, q)],
       db.journal + [row],
       if q.failure.Some? then db.failures[q.failure.value.failureId := q.failure.value]
       else db.failures)
  }

  /** What a row says of the request it was written for. */
  predicate Tells(row: Entry, q: Request) {
    && row.body.runId == q.runId && row.body.entryId == q.entryId && row.body.timestamp == q.now
    && row.body.actor == q.actor && row.body.correlationId == q.correlationId
    && row.body.stateAfter == q.target && row.body.pending == q.pending
    && (q.failure.None? ==> row.body.failureId == None)
    && (q.failure.Some? ==> row.body.failureId == Some(q.failure.value.failureId))
  }

  /** `after` has one journal row more, which tells of the request and where it found
      the Run, and the failure record, if there is one, as it was given. */
  ghost predicate Written(before: Db, after: Db, q: Request) {
    var n := |before.journal|;
    && q.runId in before.runs
    && |after.journal| == n + 1 && after.journal[..n] == before.journal && Tells(after.journal[n], q)
    && after.journal[n].body.stateBefore == before.runs[q.runId].state
    && after.journal[n].body.stateVersion == before.runs[q.runId].stateVersion + 1
    && (q.failure.None? ==> after.failures == before.failures)
    && (q.failure.Some? ==>
          var id := q.failure.value.failureId;
          && after.failures.Keys == before.failures.Keys + {id} && id !in before.failures
          && after.failures[id] == q.failure.value
          && forall f <- before.failures :: after.failures[f] == before.failures[f])
  }

  lemma CommitIsWritten(db: Db, q: Request, h: Hasher)
    requires Commits(db, q)
    ensures Written(db, After(db, q, h), q)
  {
  }

  /* ---- Invariants ----------------------------------------------------------- */

  ghost predicate Numbered(rows: seq<Entry>) {
    forall i :: 0 <= i < |rows| ==> rows[i].body.sequence == i
  }

  /** Row `i` carries its own digest and the digest of the row before it. */
  ghost predicate Linked(rows: seq<Entry>, i: nat, h: Hasher)
    requires i < |rows|
  {
    && rows[i].hash == h(rows[i].body)
    && rows[i].body.previousHash == if i == 0 then None else Some(rows[i - 1].hash)
  }

  ghost predicate WellLinked(rows: seq<Entry>, h: Hasher) {
    forall i :: 0 <= i < |rows| ==> Linked(rows, i, h)
  }

  /** The state a Run was in before row `i`. */
  function StateBefore(init: Run, rows: seq<Entry>, i: nat): State
    requires i <= |rows|
  {
    if i == 0 then init.state else rows[i - 1].body.stateAfter
  }

  ghost predicate RowFits(init: Run, rows: seq<Entry>, i: nat)
    requires i < |rows|
  {
    var b := rows[i].body;
    && b.stateBefore == StateBefore(init, rows, i)
    && CanTransition(b.stateBefore, b.stateAfter)
    && b.stateVersion == init.stateVersion + i + 1
    && (b.pending.Some? <==> IsWaiting(b.stateAfter))
    && (b.failureId.Some? <==> b.stateAfter == Failed)
  }

  /** What the journal alone says the Run row should be now. */
  function Replay(init: Run, rows: seq<Entry>): Run {
    if rows == [] then init
    else
      var n := |rows| - 1;
      var run := Replay(init, rows[..n]);
      var b := rows[n].body;
      run.(state := b.stateAfter, stateVersion := b.stateVersion, updatedAt := b.timestamp,
           disposition := if IsTerminal(b.stateAfter) then Some(b.stateAfter) else run.disposition)
  }

  function FailureIds(db: Db, id: string): set<string> {
    set f <- db.failures | db.failures[f].runId == id
  }

  /** What the rows of one Run promise about it, relative to the Run as it was
      inserted: numbering, links, table steps, and that replaying them gives
      the Run row. */
  ghost predicate JournalOf(init: Run, run: Run, rows: seq<Entry>, h: Hasher) {
    && Numbered(rows)
    && WellLinked(rows, h)
    && (forall i :: 0 <= i < |rows| ==> RowFits(init, rows, i))
    && run == Replay(init, rows)
  }

  /** The failure record a Run has: the one its last row names, if it names one. */
  function LastFailure(rows: seq<Entry>): set<string> {
    if rows != [] && rows[|rows| - 1].body.failureId.Some?
    then {rows[|rows| - 1].body.failureId.value} else {}
  }

  ghost predicate RunConsistent(db: Db, init: Run, h: Hasher) {
    && init.runId in db.runs
    && JournalOf(init, db.runs[init.runId], RowsOf(db.journal, init.runId), h)
    && FailureIds(db, init.runId) == LastFailure(RowsOf(db.journal, init.runId))
  }

  /** Runs enter the table unfinished: not terminal and without a disposition. */
  predicate Fresh(run: Run) {
    !IsTerminal(run.state) && run.disposition.None?
  }

  /** Journal rows and failure records belong to a Run in the table. */
  predicate ForeignKeys(db: Db) {
    && (forall e <- db.journal :: e.body.runId in db.runs)
    && (forall f <- db.failures :: db.failures[f].runId in db.runs)
  }

  /** `initial` remembers every Run as it was inserted. */
  ghost predicate Consistent(db: Db, initial: map<string, Run>, h: Hasher) {
    && initial.Keys == db.runs.Keys
    && ForeignKeys(db)
    && (forall id <- initial :: RunFrom(db, initial, id, h))
  }

  ghost predicate RunFrom(db: Db, initial: map<string, Run>, id: string, h: Hasher)
    requires id in initial
  {
    initial[id].runId == id && Fresh(initial[id]) && RunConsistent(db, initial[id], h)
  }

  /* ---- The queries agree with the invariant --------------------------------- */

  lemma {:induction false} RowsOfAppend(journal: seq<Entry>, row: Entry, id: string)
    ensures RowsOf(journal + [row], id)
            == if row.body.runId == id then RowsOf(journal, id) + [row] else RowsOf(journal, id)
  {
    assert (journal + [row])[..|journal|] == journal;
  }

  lemma {:induction false} RowsAreOfTheRun(journal: seq<Entry>, id: string)
    ensures forall e :: e in RowsOf(journal, id) <==> e in journal && e.body.runId == id
  {
    if journal != [] {
      var n := |journal| - 1;
      assert journal == journal[..n] + [journal[n]];
      RowsAreOfTheRun(journal[..n], id);
    }
  }

  /** On a numbered journal the MAX and ORDER BY queries find the last row. */
  lemma {:induction false} QueriesFindTheLastRow(journal: seq<Entry>, id: string)
    requires Numbered(RowsOf(journal, id))
    ensures var rows := RowsOf(journal, id);
            && NextSequence(journal, id) == |rows|
            && MaxRow(journal, id) == (if rows == [] then None else Some(rows[|rows| - 1]))
  {
    if journal != [] {
      var n := |journal| - 1;
      var rows, shorter := RowsOf(journal, id), RowsOf(journal[..n], id);
      assert Numbered(shorter) by {
        forall i | 0 <= i < |shorter| ensures shorter[i].body.sequence == i {
          assert rows[i] == shorter[i];
        }
      }
      QueriesFindTheLastRow(journal[..n], id);
      if journal[n].body.runId == id {
        assert rows[|shorter|] == journal[n];
      }
    }
  }

  /** The unique (run_id, sequence) constraint never fires on a numbered journal. */
  lemma NextSequenceIsUnused(journal: seq<Entry>, id: string)
    requires Numbered(RowsOf(journal, id))
    ensures forall e <- journal :: e.body.runId == id ==> e.body.sequence != NextSequence(journal, id)
  {
    QueriesFindTheLastRow(journal, id);
    RowsAreOfTheRun(journal, id);
    forall e <- journal | e.body.runId == id
      ensures e.body.sequence != NextSequence(journal, id)
    {
      assert e in RowsOf(journal, id);
    }
  }

  /* ---- One committed request keeps every Run consistent ----------------------- */

  lemma ReplayAppend(init: Run, rows: seq<Entry>, row: Entry)
    ensures Replay(init, rows + [row])
            == var run := Replay(init, rows);
               run.(state := row.body.stateAfter, stateVersion := row.body.stateVersion,
                    updatedAt := row.body.timestamp,
                    disposition := if IsTerminal(row.body.stateAfter)
                                   then Some(row.body.stateAfter) else run.disposition)
  {
    assert (rows + [row])[..|rows|] == rows;
  }

  /** The failure record of a request belongs to the Run it fails, as at every
      call site. */
  predicate OwnFailure(q: Request) {
    q.failure.Some? ==> q.failure.value.runId == q.runId
  }

  lemma AppendKeepsJournal(init: Run, run: Run, rows: seq<Entry>, q: Request, h: Hasher)
    requires JournalOf(init, run, rows, h)
    requires run.stateVersion == init.stateVersion + |rows| && run.state == StateBefore(init, rows, |rows|)
    requires Accepts(run.state, q.target, q.failure.Some?, q.pending.Some?)
    ensures JournalOf(init, MovedRun(run, q), rows + [NextRow(run, rows, q, h)], h)
  {
    var row := NextRow(run, rows, q, h);
    var rows' := rows + [row];
    ReplayAppend(init, rows, row);
    forall i | 0 <= i < |rows'| ensures RowFits(init, rows', i) && Linked(rows', i, h) {
      if i < |rows| {
        assert RowFits(init, rows, i) && Linked(rows, i, h);
      }
    }
  }

  lemma MovedRunConsistent(db: Db, init: Run, q: Request, h: Hasher)
    requires RunConsistent(db, init, h) && init.runId == q.runId && Commits(db, q) && OwnFailure(q)
    requires RunShape(db, init)
    ensures RunConsistent(After(db, q, h), init, h)
  {
    var after := After(db, q, h);
    var rows := RowsOf(db.journal, q.runId);
    var row := NextRow(db.runs[q.runId], rows, q, h);
    RowsOfAppend(db.journal, row, q.runId);
    AppendKeepsJournal(init, db.runs[q.runId], rows, q, h);
    assert RowsOf(after.journal, q.runId) == rows + [row];
    assert FailureIds(after, q.runId) == FailureIds(db, q.runId) + LastFailure(rows + [row]);
    EntriesFromFinished(db.runs[q.runId].state, q.target);
  }

  /** A Run that still moves has not failed. */
  lemma EntriesFromFinished(current: State, target: State)
    requires CanTransition(current, target)
    ensures !IsTerminal(current)
  {
  }

  /** Facts about the current row that follow from its journal. */
  ghost predicate RunShape(db: Db, init: Run) {
    && init.runId in db.runs
    && var rows := RowsOf(db.journal, init.runId);
       && db.runs[init.runId].stateVersion == init.stateVersion + |rows|
       && db.runs[init.runId].state == StateBefore(init, rows, |rows|)
       && (db.runs[init.runId].disposition.Some? <==> IsTerminal(db.runs[init.runId].state))
       && (db.runs[init.runId].state != Failed ==> FailureIds(db, init.runId) == {})
  }

  lemma {:induction false} ReplayShape(init: Run, rows: seq<Entry>)
    requires Fresh(init) && forall i :: 0 <= i < |rows| ==> RowFits(init, rows, i)
    ensures var run := Replay(init, rows);
            && run.stateVersion == init.stateVersion + |rows|
            && run.state == StateBefore(init, rows, |rows|)
            && run.runId == init.runId
            && run.repositoryId == init.repositoryId
            && run.budgetUsed == init.budgetUsed
            && (run.disposition == if IsTerminal(run.state) then Some(run.state) else None)
  {
    if rows != [] {
      var n := |rows| - 1;
      var shorter := rows[..n];
      forall i | 0 <= i < n ensures RowFits(init, shorter, i) {
        assert RowFits(init, rows, i);
      }
      ReplayShape(init, shorter);
      assert RowFits(init, rows, n);
      assert StateBefore(init, shorter, n) == StateBefore(init, rows, n);
    }
  }

  lemma ConsistentRunShape(db: Db, init: Run, h: Hasher)
    requires RunConsistent(db, init, h) && Fresh(init)
    ensures RunShape(db, init)
  {
    var rows := RowsOf(db.journal, init.runId);
    ReplayShape(init, rows);
    if rows != [] {
      assert RowFits(init, rows, |rows| - 1);
    }
  }

  lemma StoredUnderOwnId(db: Db, initial: map<string, Run>, id: string, h: Hasher)
    requires Consistent(db, initial, h) && id in db.runs
    ensures db.runs[id].runId == id
  {
    assert RunFrom(db, initial, id, h);
    ReplayShape(initial[id], RowsOf(db.journal, id));
  }

  lemma OtherRunConsistent(db: Db, init: Run, q: Request, h: Hasher)
    requires RunConsistent(db, init, h) && init.runId != q.runId && Commits(db, q) && OwnFailure(q)
    ensures RunConsistent(After(db, q, h), init, h)
  {
    var after := After(db, q, h);
    RowsOfAppend(db.journal, after.journal[|db.journal|], init.runId);
    assert FailureIds(after, init.runId) == FailureIds(db, init.runId);
  }

  lemma CommitKeepsConsistent(db: Db, initial: map<string, Run>, q: Request, h: Hasher)
    requires Consistent(db, initial, h) && Commits(db, q) && OwnFailure(q)
    ensures Consistent(After(db, q, h), initial, h)
  {
    var after := After(db, q, h);
    assert ForeignKeys(after);
    assert after.runs.Keys == db.runs.Keys;
    forall id <- initial ensures RunFrom(after, initial, id, h) {
      assert RunFrom(db, initial, id, h);
      if id == q.runId {
        ConsistentRunShape(db, initial[id], h);
        MovedRunConsistent(db, initial[id], q, h);
      } else {
        OtherRunConsistent(db, initial[id], q, h);
      }
    }
  }

  /** INSERT INTO runs. */
  function WithRun(db: Db, run: Run): Db {
    db.(runs := db.runs[run.runId := run])
  }

  lemma {:induction false} NoRowsOf(journal: seq<Entry>, id: string)
    requires forall e <- journal :: e.body.runId != id
    ensures RowsOf(journal, id) == []
  {
    if journal != [] {
      NoRowsOf(journal[..|journal| - 1], id);
    }
  }

  lemma NewRunConsistent(db: Db, run: Run, h: Hasher)
    requires ForeignKeys(db) && Fresh(run) && run.runId !in db.runs
    ensures RunConsistent(WithRun(db, run), run, h)
  {
    NoRowsOf(db.journal, run.runId);
    assert FailureIds(WithRun(db, run), run.runId) == {};
  }

  lemma InsertKeepsConsistent(db: Db, initial: map<string, Run>, run: Run, h: Hasher)
    requires Consistent(db, initial, h) && Fresh(run) && run.runId !in db.runs
    ensures Consistent(WithRun(db, run), initial[run.runId := run], h)
  {
    var db', initial' := WithRun(db, run), initial[run.runId := run];
    assert ForeignKeys(db');
    assert initial'.Keys == db'.runs.Keys;
    forall id <- initial' ensures RunFrom(db', initial', id, h) {
      if id == run.runId {
        NewRunConsistent(db, run, h);
      } else {
        assert RunFrom(db, initial, id, h);
        assert FailureIds(db', id) == FailureIds(db, id);
      }
    }
  }

  /* ---- What a reader of the table may still believe ------------------------------ */

  /** A Run once read never runs ahead of the table, and is exact while no one
      else has moved it. */
  predicate Remembered(db: Db, run: Run) {
    && run.runId in db.runs
    && run.stateVersion <= db.runs[run.runId].stateVersion
    && (run.stateVersion == db.runs[run.runId].stateVersion ==> run == db.runs[run.runId])
  }

  lemma MovesKeepRemembered(db: Db, run: Run, q: Request, h: Hasher)
    requires Remembered(db, run) && Commits(db, q)
    ensures Remembered(After(db, q, h), run)
  {
  }

  /** Rows are never taken back, and a Run's version says how many it has. */
  lemma CommitAddsARow(db: Db, q: Request, h: Hasher, id: string)
    requires Commits(db, q)
    ensures RowsOf(After(db, q, h).journal, id)
            == RowsOf(db.journal, id)
               + if q.runId == id then [NextRow(db.runs[id], RowsOf(db.journal, id), q, h)] else []
  {
    var row := NextRow(db.runs[q.runId], RowsOf(db.journal, q.runId), q, h);
    RowsOfAppend(db.journal, row, id);
  }

  lemma VersionCountsRows(db: Db, initial: map<string, Run>, id: string, h: Hasher)
    requires Consistent(db, initial, h) && id in db.runs
    ensures id in initial && db.runs[id].stateVersion == initial[id].stateVersion + |RowsOf(db.journal, id)|
  {
    assert RunFrom(db, initial, id, h);
    ConsistentRunShape(db, initial[id], h);
  }

  /* ---- The hash chain ---------------------------------------------------------- */

  /** Two different journal rows of `a` and `b` with the same digest. */
  ghost predicate Collision(a: seq<Entry>, b: seq<Entry>, h: Hasher) {
    exists i, j :: 0 <= i < |a| && 0 <= j < |b| && a[i].body != b[j].body && h(a[i].body) == h(b[j].body)
  }

  /** The head hash of a well-linked journal fixes the whole journal, entry for
      entry and in length; two different journals under one head hash exhibit a
      collision of the digest between two of their own rows. */
  lemma {:induction false} HeadHashDeterminesHistory(a: seq<Entry>, b: seq<Entry>, h: Hasher)
    requires WellLinked(a, h) && WellLinked(b, h)
    requires a != [] && b != [] && a[|a| - 1].hash == b[|b| - 1].hash
    ensures a == b || Collision(a, b, h)
    decreases |a|
  {
    var m, n := |a| - 1, |b| - 1;
    assert Linked(a, m, h) && Linked(b, n, h);
    if a[m].body == b[n].body {
      assert a == a[..m] + [a[m]] && b == b[..n] + [b[n]];
      if m > 0 {
        PrefixLinked(a, h);
        PrefixLinked(b, h);
        HeadHashDeterminesHistory(a[..m], b[..n], h);
        if a[..m] != b[..n] {
          var i, j :| 0 <= i < m && 0 <= j < n
                      && a[..m][i].body != b[..n][j].body && h(a[..m][i].body) == h(b[..n][j].body);
          assert a[i].body != b[j].body && h(a[i].body) == h(b[j].body);
        }
      }
    }
  }

  lemma PrefixLinked(rows: seq<Entry>, h: Hasher)
    requires rows != [] && WellLinked(rows, h)
    ensures WellLinked(rows[..|rows| - 1], h)
  {
    var shorter := rows[..|rows| - 1];
    forall i | 0 <= i < |shorter| ensures Linked(shorter, i, h) {
      assert Linked(rows, i, h);
    }
  }

  /** The states a journal takes a Run through, as a lifecycle history. */
  function History(init: Run, rows: seq<Entry>): (s: seq<State>)
    ensures |s| == |rows| + 1
    ensures forall i :: 0 <= i < |s| ==> s[i] == StateBefore(init, rows, i)
  {
    seq(|rows| + 1, i requires 0 <= i <= |rows| => StateBefore(init, rows, i))
  }

  lemma JournalsAreLegalHistories(db: Db, init: Run, h: Hasher)
    requires RunConsistent(db, init, h) && Fresh(init)
    ensures var s := History(init, RowsOf(db.journal, init.runId));
            Legal(s) && s[0] == init.state && s[|s| - 1] == db.runs[init.runId].state
  {
    var rows := RowsOf(db.journal, init.runId);
    var s := History(init, rows);
    ConsistentRunShape(db, init, h);
    forall i, j | 0 <= i < j < |s| && j == i + 1 ensures CanTransition(s[i], s[j]) {
      assert RowFits(init, rows, i);
    }
  }
}
