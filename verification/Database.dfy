/** The database as an object: a durable copy of the tables, and the working
    copy of an open transaction (persistence/sqlite.py). */
module Database {
  import opened Wrappers
  import opened Lifecycle
  import opened Journal

  /** The tables of the audit trail; each has a primary key of its own. */
  datatype Table = ContractTable | DecisionTable | VerificationTable | ReworkTable

  datatype Key = Key(table: Table, id: string)

  class Database {
    const hash: Hasher
    var committed: Db
    var working: Db
    var audit: set<Key>
    ghost var initial: map<string, Run>

    constructor (hash: Hasher)
      ensures this.hash == hash && committed == EMPTY_DB && audit == {} && initial == map[] && Valid()
    {
      this.hash := hash;
      committed, working, audit, initial := EMPTY_DB, EMPTY_DB, {}, map[];
    }

    ghost predicate Valid()
      reads this
    {
      Consistent(committed, initial, hash)
    }

    /** INSERT INTO runs; the primary key refuses a second row for one Run. */
    method InsertRun(run: Run) returns (ok: bool)
      requires Valid()
      modifies this`committed, this`initial
      ensures !ok || Fresh(run) ==> Valid()
      ensures ok <==> run.runId !in old(committed).runs
      ensures ok ==> committed == WithRun(old(committed), run) && initial == old(initial)[run.runId := run]
      ensures !ok ==> committed == old(committed) && initial == old(initial)
    {
      ok := run.runId !in committed.runs;
      if ok {
        if Fresh(run) {
          InsertKeepsConsistent(committed, initial, run, hash);
        }
        committed, initial := WithRun(committed, run), initial[run.runId := run];
      }
    }

    /** INSERT INTO one of the audit tables, as a statement of its own. A repeated
        key raises; the row of the Run is not touched either way. */
    method InsertAudit(key: Key) returns (ok: bool)
      modifies this`audit
      ensures ok <==> key !in old(audit)
      ensures audit == old(audit) + {key}
    {
      ok := key !in audit;
      audit := audit + {key};
    }

    /** SELECT * FROM runs WHERE run_id = ? */
    method GetRun(id: string) returns (run: Option<Run>)
      ensures run == if id in committed.runs then Some(committed.runs[id]) else None
    {
      run := if id in committed.runs then Some(committed.runs[id]) else None;
    }

    /** One transaction: BEGIN IMMEDIATE, read and check the version, run the
        kernel, append the journal row, compare-and-set the Run row, store the
        failure record, COMMIT; any error rolls back. The process may die just
        before the statement numbered `crashAt` (0 is BEGIN, 7 is COMMIT) or,
        with 8, between the commit and the return.

        The request takes effect in full or not at all, it takes effect exactly
        when `Commits` says so, and a crash never leaves a part of it. */
    method ApplyTransition(q: Request, crashAt: nat) returns (r: ApplyResult)
      requires Valid()
      modifies this`committed, this`working
      ensures OwnFailure(q) ==> Valid()
      ensures r.Committed? ==>
                && Commits(old(committed), q) && committed == After(old(committed), q, hash)
                && r.outcome == Outcome(committed.runs[q.runId], q.pending, q.failure)
                && Written(old(committed), committed, q)
      ensures r.RolledBack? ==> committed == old(committed) && !Commits(old(committed), q)
      ensures r.RolledBack? ==> r.error == Refusal(old(committed), q)
      ensures r.Crashed? ==>
                || committed == old(committed)
                || (crashAt == 8 && Commits(old(committed), q) && committed == After(old(committed), q, hash))
      ensures crashAt > 8 ==> !r.Crashed?
    {
      hide Consistent, After, Written, HeadHash, NextSequence;
      if crashAt == 0 { return Crashed; }
      working := committed;

      if crashAt == 1 { return Crashed; }
      if q.runId !in working.runs {
        return RolledBack(RunNotFound);
      }
      var current := working.runs[q.runId];
      if current.stateVersion != q.expectedVersion {
        return RolledBack(VersionMismatch);
      }
      var outcome := TransitionRun(current, q.target, q.now, q.failure, q.pending);
      if outcome.Failure? {
        return RolledBack(Refused(outcome.error));
      }

      if crashAt == 2 { return Crashed; }
      var previousHash := HeadHash(working.journal, q.runId);
      if crashAt == 3 { return Crashed; }
      var sequence := NextSequence(working.journal, q.runId);
      StatementsBuildAfter(committed, initial, q, hash);
      var row := BuildEntry(q, current.state, outcome.value.run.stateVersion, previousHash, sequence, hash);

      if crashAt == 4 { return Crashed; }
      var inserted := InsertEntry(working, row);
      if inserted.None? {
        return RolledBack(ConstraintFailed);
      }
      working := inserted.value;

      if crashAt == 5 { return Crashed; }
      var (updated, rowcount) := UpdateRun(working, q.runId, q.expectedVersion, outcome.value.run);
      if rowcount != 1 {
        return RolledBack(ChangedUnderneath);
      }
      working := updated;

      if crashAt == 6 { return Crashed; }
      if q.failure.Some? {
        var stored := InsertFailure(working, q.failure.value);
        if stored.None? {
          return RolledBack(ConstraintFailed);
        }
        working := stored.value;
      }

      if crashAt == 7 { return Crashed; }
      CommitIsWritten(committed, q, hash);
      if OwnFailure(q) {
        CommitKeepsConsistent(committed, initial, q, hash);
      }
      committed := working;
      if crashAt == 8 { return Crashed; }
      return Committed(outcome.value);
    }

    /** SELECT * FROM runs WHERE state IN (...): every Run in one of the states is
        listed, as its row stands, and no Run is listed twice. */
    method ListRunsByStates(states: set<State>) returns (runs: seq<Run>)
      requires Valid()
      ensures forall run <- runs ::
                run.runId in committed.runs && committed.runs[run.runId] == run && run.state in states
      ensures forall id <- committed.runs :: committed.runs[id].state in states ==> committed.runs[id] in runs
      ensures forall i, j :: 0 <= i < j < |runs| ==> runs[i].runId != runs[j].runId
    {
      runs := [];
      var todo := committed.runs.Keys;
      while todo != {}
        invariant todo <= committed.runs.Keys
        invariant forall run <- runs ::
                    && run.runId in committed.runs && run.runId !in todo
                    && committed.runs[run.runId] == run && run.state in states
        invariant forall id <- committed.runs ::
                    committed.runs[id].state in states ==> id in todo || committed.runs[id] in runs
        invariant forall i, j :: 0 <= i < j < |runs| ==> runs[i].runId != runs[j].runId
      {
        var id :| id in todo;
        StoredUnderOwnId(committed, initial, id, hash);
        todo := todo - {id};
        if committed.runs[id].state in states {
          runs := runs + [committed.runs[id]];
        }
      }
    }
  }

  /** On a consistent database the two journal queries see the last row. */
  lemma RowQueries(db: Db, initial: map<string, Run>, id: string, h: Hasher)
    requires Consistent(db, initial, h) && id in db.runs
    ensures var rows := RowsOf(db.journal, id);
            && NextSequence(db.journal, id) == |rows|
            && HeadHash(db.journal, id) == (if rows == [] then None else Some(rows[|rows| - 1].hash))
            && forall e <- db.journal :: e.body.runId == id ==> e.body.sequence != |rows|
  {
    assert RunFrom(db, initial, id, h);
    QueriesFindTheLastRow(db.journal, id);
    NextSequenceIsUnused(db.journal, id);
  }

  /** The row the statements insert for an accepted request. */
  function StatementRow(db: Db, q: Request, version: nat, h: Hasher): Entry
    requires q.runId in db.runs
  {
    BuildEntry(q, db.runs[q.runId].state, version,
               HeadHash(db.journal, q.runId), NextSequence(db.journal, q.runId), h)
  }

  /** Statement by statement, an accepted request on the current version builds
      exactly `After`, and only a used identifier can stop it. */
  lemma StatementsBuildAfter(db: Db, initial: map<string, Run>, q: Request, h: Hasher)
    requires Consistent(db, initial, h) && q.runId in db.runs
    requires db.runs[q.runId].stateVersion == q.expectedVersion
    requires Accepts(db.runs[q.runId].state, q.target, q.failure.Some?, q.pending.Some?)
    ensures var out := TransitionRun(db.runs[q.runId], q.target, q.now, q.failure, q.pending);
            var inserted := InsertEntry(db, StatementRow(db, q, out.value.run.stateVersion, h));
            && out.value == Outcome(MovedRun(db.runs[q.runId], q), q.pending, q.failure)
            && (inserted.None? ==> !Commits(db, q))
            && (inserted.Some? ==>
                  var (updated, rowcount) := UpdateRun(inserted.value, q.runId, q.expectedVersion, out.value.run);
                  && rowcount == 1
                  && (q.failure.None? ==> Commits(db, q) && updated == After(db, q, h))
                  && (q.failure.Some? ==>
                        var stored := InsertFailure(updated, q.failure.value);
                        && (stored.None? ==> !Commits(db, q))
                        && (stored.Some? ==> Commits(db, q) && stored.value == After(db, q, h))))
  {
    hide RunFrom, ForeignKeys, RowsOf;
    RowQueries(db, initial, q.runId, h);
    var version := MovedRun(db.runs[q.runId], q).stateVersion;
    assert StatementRow(db, q, version, h)
        == NextRow(db.runs[q.runId], RowsOf(db.journal, q.runId), q, h);
  }

  /** Which error a request that does not commit gets: the first test it fails. */
  function Refusal(db: Db, q: Request): (e: ApplyError)
    requires !Commits(db, q)
    ensures e == VersionMismatch <==>
              q.runId in db.runs && db.runs[q.runId].stateVersion != q.expectedVersion
    ensures e == RunNotFound <==> q.runId !in db.runs
    ensures e == ConstraintFailed <==>
              && q.runId in db.runs && db.runs[q.runId].stateVersion == q.expectedVersion
              && Accepts(db.runs[q.runId].state, q.target, q.failure.Some?, q.pending.Some?)
    ensures e.Refused? <==>
              && q.runId in db.runs && db.runs[q.runId].stateVersion == q.expectedVersion
              && !Accepts(db.runs[q.runId].state, q.target, q.failure.Some?, q.pending.Some?)
    ensures e != ChangedUnderneath && e != Locked
  {
    if q.runId !in db.runs then RunNotFound
    else if db.runs[q.runId].stateVersion != q.expectedVersion then VersionMismatch
    else
      match TransitionRun(db.runs[q.runId], q.target, q.now, q.failure, q.pending)
      case Failure(reason) => Refused(reason)
      case Success(_) => ConstraintFailed
  }
}
