/** The content-addressed blob store (persistence/artifacts.py), the artifact rows
    that point into it (persistence/sqlite.py) and the purge that deletes from it
    (interfaces/cli.py): first run alone, then with every statement of writers and
    purges interleaved, and any process dying anywhere. */
module BlobStore {
  import opened Wrappers
  import Redaction

  datatype MediaKind = Text | Json | Binary | Diff | Log

  /** Kinds whose content is redacted before it is stored. */
  predicate Redactable(kind: MediaKind) {
    kind in {Text, Json, Log, Diff}
  }

  datatype Artifact = Artifact(id: string, kind: MediaKind, size: nat, digest: string, redacted: bool)

  type Digester = string -> string

  /** `blobs` and `tombstones` are keyed by digest, as their file names are;
      `staging` holds what interrupted writes have left behind. */
  datatype Store = Store(
    blobs: map<string, string>, tombstones: set<string>, staging: seq<string>, rows: map<string, Artifact>)

  const EMPTY_STORE := Store(map[], {}, [], map[])

  /** Every blob is filed under the digest of its bytes. */
  ghost predicate Addressed(s: Store, h: Digester) {
    forall d <- s.blobs :: h(s.blobs[d]) == d
  }

  /* ---- Reading ------------------------------------------------------------------------- */

  datatype ReadResult = NotFound | Corrupted | Content(bytes: string)

  /** `read_blob` */
  function Read(s: Store, digest: string, h: Digester): ReadResult {
    if digest !in s.blobs then NotFound
    else if h(s.blobs[digest]) != digest then Corrupted
    else Content(s.blobs[digest])
  }

  /* ---- Operations, run alone --------------------------------------------------------------- */

  /** What is stored for given content. */
  function Stored(content: string, kind: MediaKind, redact: bool): string {
    if redact && Redactable(kind) then Redaction.Redacted(content) else content
  }

  /** Text, JSON, logs and diffs are stored without their secrets; what is kept as it
      is, and what has no secret, is stored as it came. */
  lemma StoredMeans(content: string, kind: MediaKind, redact: bool)
    ensures var bytes := Stored(content, kind, redact);
            && (redact && (kind == Text || kind == Json || kind == Log || kind == Diff) ==>
                  bytes == Redaction.Redacted(content) && !Redaction.ContainsSecret(bytes))
            && (!redact || kind == Binary || !Redaction.ContainsSecret(content) ==> bytes == content)
  {
    Redaction.RedactionIsComplete(content);
    Redaction.CleanIsUntouched(content);
  }

  predicate OverQuota(content: string, maxSize: Option<nat>) {
    maxSize.Some? && |content| > maxSize.value
  }

  /** A write that creates its staging file (1), fills it (2) and renames it (3),
      and dies after `cut` of these. */
  function AfterWrite(s: Store, content: string, kind: MediaKind, redact: bool, maxSize: Option<nat>, cut: nat,
                      h: Digester): Store {
    var bytes := Stored(content, kind, redact);
    if OverQuota(content, maxSize) || h(bytes) in s.blobs || cut == 0 then s
    else if cut == 1 then s.(staging := s.staging + [""])
    else if cut == 2 then s.(staging := s.staging + [bytes])
    else s.(blobs := s.blobs[h(bytes) := bytes])
  }

  /** `insert_artifact`; the primary key refuses a second row. */
  function AfterInsert(s: Store, a: Artifact): Store {
    if a.id in s.rows then s else s.(rows := s.rows[a.id := a])
  }

  /** The rows that carry a digest. */
  function RowsWith(s: Store, digest: string): set<string> {
    set id <- s.rows | s.rows[id].digest == digest
  }

  /** The body of the purge loop for one artifact. */
  function AfterPurge(s: Store, id: string): Store {
    if id !in s.rows then s
    else
      var d := s.rows[id].digest;
      if |RowsWith(s, d)| > 1 || d !in s.blobs then s
      else s.(tombstones := s.tombstones + {d}, blobs := s.blobs - {d})
  }

  /** Another row carries the digest of this one. */
  predicate Shared(s: Store, id: string) {
    id in s.rows && |RowsWith(s, s.rows[id].digest)| > 1
  }

  function SharedAmong(s: Store, ids: seq<string>): nat {
    if ids == [] then 0
    else
      var n := |ids| - 1;
      SharedAmong(s, ids[..n]) + if Shared(s, ids[n]) then 1 else 0
  }

  function AfterPurges(s: Store, ids: seq<string>): Store {
    if ids == [] then s else AfterPurge(AfterPurges(s, ids[..|ids| - 1]), ids[|ids| - 1])
  }

  /** A purge removes blobs, never rows. */
  lemma {:induction false} RowsOutlivePurges(s: Store, ids: seq<string>)
    ensures AfterPurges(s, ids).rows == s.rows
  {
    if ids != [] {
      RowsOutlivePurges(s, ids[..|ids| - 1]);
    }
  }

  /** A completed write reads back as what was stored; if it does not, the bytes
      read and the bytes written collide under the digest. */
  lemma WriteReadsBack(s: Store, content: string, kind: MediaKind, redact: bool, maxSize: Option<nat>, cut: nat,
                       h: Digester)
    requires Addressed(s, h) && !OverQuota(content, maxSize) && cut >= 3
    ensures var bytes := Stored(content, kind, redact);
            var r := Read(AfterWrite(s, content, kind, redact, maxSize, cut, h), h(bytes), h);
            && r.Content?
            && (r.bytes == bytes || (r.bytes != bytes && h(r.bytes) == h(bytes)))
  {
  }

  /* ---- The store as an object ---------------------------------------------------------------- */

  datatype WriteResult = Returned(artifact: Artifact) | QuotaExceeded | WriteDied

  class BlobStore {
    const digest: Digester
    var store: Store

    constructor (digest: Digester)
      ensures this.digest == digest && store == EMPTY_STORE && Valid()
    {
      this.digest := digest;
      store := EMPTY_STORE;
    }

    ghost predicate Valid()
      reads this
    {
      Addressed(store, digest)
    }

    /** `write_blob`, for a process that dies after `cut` writes to disk (3 or more: not before the rename). */
    method WriteBlob(content: string, kind: MediaKind, redact: bool, maxSize: Option<nat>, id: string, cut: nat)
      returns (r: WriteResult)
      requires Valid()
      modifies this`store
      ensures Valid() && store == AfterWrite(old(store), content, kind, redact, maxSize, cut, digest)
      ensures r.QuotaExceeded? <==> maxSize.Some? && |content| > maxSize.value
      ensures cut >= 3 && !r.QuotaExceeded? ==> r.Returned?
      ensures r.Returned? ==>
                var bytes := Stored(content, kind, redact);
                && r.artifact.id == id && r.artifact.kind == kind
                && r.artifact.digest == digest(bytes) && r.artifact.size == |bytes|
                && (r.artifact.redacted <==> redact && Redactable(kind) && Redaction.ContainsSecret(content))
                && digest(bytes) in store.blobs
                && (bytes != content ==> redact && kind != Binary && Redaction.ContainsSecret(content))
                && (redact && Redactable(kind) ==> !Redaction.ContainsSecret(bytes))
    {
      if maxSize.Some? && |content| > maxSize.value {
        return QuotaExceeded;
      }
      var bytes, wasRedacted := content, false;
      if redact && Redactable(kind) {
        bytes, wasRedacted := Redaction.Redact(content);
      }
      var d := digest(bytes);
      if d !in store.blobs {
        if cut == 0 { return WriteDied; }
        var before := store.staging;
        store := store.(staging := before + [""]);
        if cut == 1 { return WriteDied; }
        store := store.(staging := before + [bytes]);
        if cut == 2 { return WriteDied; }
        store := store.(staging := before, blobs := store.blobs[d := bytes]);
      }
      return Returned(Artifact(id, kind, |bytes|, d, wasRedacted));
    }

    method InsertArtifact(a: Artifact) returns (ok: bool)
      requires Valid()
      modifies this`store
      ensures Valid() && store == AfterInsert(old(store), a)
      ensures ok <==> a.id !in old(store).rows
    {
      ok := a.id !in store.rows;
      if ok {
        store := store.(rows := store.rows[a.id := a]);
      }
    }

    /** `read_blob`: bytes that no longer match their name are reported, and never
        come from the store's own writes. */
    method ReadBlob(a: Artifact) returns (r: ReadResult)
      ensures r == NotFound <==> a.digest !in store.blobs
      ensures r == Corrupted <==> a.digest in store.blobs && digest(store.blobs[a.digest]) != a.digest
      ensures r.Content? ==> digest(r.bytes) == a.digest && r == Read(store, a.digest, digest)
      ensures Valid() ==> r != Corrupted
    {
      if a.digest !in store.blobs {
        return NotFound;
      }
      var bytes := store.blobs[a.digest];
      r := if digest(bytes) != a.digest then Corrupted else Content(bytes);
    }

    method PurgeOne(id: string) returns (purged: nat, skippedShared: nat)
      requires Valid()
      modifies this`store
      ensures Valid() && store == AfterPurge(old(store), id)
      ensures purged + skippedShared <= 1 && |store.blobs| + purged == |old(store).blobs|
      ensures skippedShared == if Shared(old(store), id) then 1 else 0
    {
      purged, skippedShared := 0, 0;
      if id in store.rows {
        var d := store.rows[id].digest;
        if |RowsWith(store, d)| > 1 {
          skippedShared := 1;
        } else if d in store.blobs {
          RemoveOne(store.blobs, d);
          store := store.(tombstones := store.tombstones + {d});
          store := store.(blobs := store.blobs - {d});
          purged := 1;
        }
      }
    }

    /** The loop of `_purge_evidence` over the artifact references of a Run, with no
        other process at work. */
    method PurgeEvidence(ids: seq<string>) returns (purged: nat, skippedShared: nat)
      requires Valid()
      modifies this`store
      ensures Valid() && store == AfterPurges(old(store), ids)
      ensures purged + skippedShared <= |ids| && |store.blobs| + purged == |old(store).blobs|
      ensures skippedShared == SharedAmong(old(store), ids)
    {
      purged, skippedShared := 0, 0;
      for i := 0 to |ids|
        invariant Valid() && store == AfterPurges(old(store), ids[..i])
        invariant purged + skippedShared <= i && |store.blobs| + purged == |old(store).blobs|
        invariant skippedShared == SharedAmong(old(store), ids[..i])
      {
        assert ids[..i + 1][..i] == ids[..i];
        RowsOutlivePurges(old(store), ids[..i]);
        var n, shared := PurgeOne(ids[i]);
        purged, skippedShared := purged + n, skippedShared + shared;
      }
      assert ids[..|ids|] == ids;
    }
  }

  lemma RemoveOne(m: map<string, string>, k: string)
    requires k in m
    ensures |m - {k}| == |m| - 1
  {
    assert (m - {k})[k := m[k]] == m;
  }

  /* ---- Many processes ---------------------------------------------------------------------------- */

  /** A process in the middle of a write that found no blob (0 checked, 1 staging
      file created, 2 filled), or of a purge whose count was one (0 counted, 1 blob
      found, 2 tombstone written). */
  datatype Task = Writing(bytes: string, pc: nat) | Purging(digest: string, pc: nat)

  datatype World = World(store: Store, tasks: map<nat, Task>)

  const START := World(EMPTY_STORE, map[])

  datatype Step =
    | StartWrite(p: nat, content: string, kind: MediaKind, redact: bool, maxSize: Option<nat>)
    | InsertRow(artifact: Artifact)
    | StartPurge(p: nat, id: string)
    | Continue(p: nat)
    | Die(p: nat)

  /** The next statement of a process in the middle of something. */
  function Advanced(w: World, p: nat, h: Digester): World
    requires p in w.tasks
  {
    match w.tasks[p]
    case Writing(bytes, pc) =>
      if pc < 2 then w.(tasks := w.tasks[p := Writing(bytes, pc + 1)])
      else World(w.store.(blobs := w.store.blobs[h(bytes) := bytes]), w.tasks - {p})
    case Purging(d, pc) =>
      if pc == 0 then
        if d in w.store.blobs then w.(tasks := w.tasks[p := Purging(d, 1)]) else w.(tasks := w.tasks - {p})
      else if pc == 1 then
        World(w.store.(tombstones := w.store.tombstones + {d}), w.tasks[p := Purging(d, 2)])
      else World(w.store.(blobs := w.store.blobs - {d}), w.tasks - {p})
  }

  /** What a process leaves in the staging directory when it dies. */
  function Leftover(t: Task): seq<string> {
    if t.Purging? || t.pc == 0 then [] else if t.pc == 1 then [""] else [t.bytes]
  }

  /** One statement of one process; a step that is not enabled changes nothing. */
  function Next(w: World, s: Step, h: Digester): World {
    match s
    case StartWrite(p, content, kind, redact, maxSize) =>
      var bytes := Stored(content, kind, redact);
      if p in w.tasks || OverQuota(content, maxSize) || h(bytes) in w.store.blobs then w
      else w.(tasks := w.tasks[p := Writing(bytes, 0)])
    case InsertRow(a) => w.(store := AfterInsert(w.store, a))
    case StartPurge(p, id) =>
      if p in w.tasks || id !in w.store.rows || |RowsWith(w.store, w.store.rows[id].digest)| > 1 then w
      else w.(tasks := w.tasks[p := Purging(w.store.rows[id].digest, 0)])
    case Continue(p) => if p in w.tasks then Advanced(w, p, h) else w
    case Die(p) =>
      if p in w.tasks then
        World(w.store.(staging := w.store.staging + Leftover(w.tasks[p])), w.tasks - {p})
      else w
  }

  function RunSteps(w: World, steps: seq<Step>, h: Digester): World {
    if steps == [] then w else Next(RunSteps(w, steps[..|steps| - 1], h), steps[|steps| - 1], h)
  }

  /** The three statements that remain to a process that has just started. */
  function Finish(w: World, p: nat, h: Digester): World {
    Next(Next(Next(w, Continue(p), h), Continue(p), h), Continue(p), h)
  }

  lemma PutAndTake(tasks: map<nat, Task>, p: nat, t: Task, u: Task)
    requires p !in tasks
    ensures tasks[p := t][p := u] == tasks[p := u] && tasks[p := t] - {p} == tasks
  {
  }

  /** With no one else at work, the statements of a write add up to the write. */
  lemma WriteAlone(w: World, p: nat, content: string, kind: MediaKind, redact: bool, maxSize: Option<nat>, h: Digester)
    requires p !in w.tasks
    ensures Finish(Next(w, StartWrite(p, content, kind, redact, maxSize), h), p, h)
            == w.(store := AfterWrite(w.store, content, kind, redact, maxSize, 3, h))
  {
    hide Stored;
    var bytes := Stored(content, kind, redact);
    if !OverQuota(content, maxSize) && h(bytes) !in w.store.blobs {
      PutAndTake(w.tasks, p, Writing(bytes, 0), Writing(bytes, 1));
      PutAndTake(w.tasks, p, Writing(bytes, 1), Writing(bytes, 2));
      PutAndTake(w.tasks, p, Writing(bytes, 2), Writing(bytes, 2));
      var w1 := w.(tasks := w.tasks[p := Writing(bytes, 0)]);
      var w2 := w.(tasks := w.tasks[p := Writing(bytes, 1)]);
      var w3 := w.(tasks := w.tasks[p := Writing(bytes, 2)]);
      assert Next(w1, Continue(p), h) == w2 && Next(w2, Continue(p), h) == w3;
    }
  }

  /** And those of a purge to the purge. */
  lemma PurgeAlone(w: World, p: nat, id: string, h: Digester)
    requires p !in w.tasks
    ensures Finish(Next(w, StartPurge(p, id), h), p, h) == w.(store := AfterPurge(w.store, id))
  {
    if id in w.store.rows && |RowsWith(w.store, w.store.rows[id].digest)| <= 1 {
      hide RowsWith;
      var d := w.store.rows[id].digest;
      PutAndTake(w.tasks, p, Purging(d, 0), Purging(d, 1));
      PutAndTake(w.tasks, p, Purging(d, 1), Purging(d, 2));
      PutAndTake(w.tasks, p, Purging(d, 2), Purging(d, 2));
      var w1 := w.(tasks := w.tasks[p := Purging(d, 0)]);
      assert Next(w, StartPurge(p, id), h) == w1;
      if d in w.store.blobs {
        var w2 := w.(tasks := w.tasks[p := Purging(d, 1)]);
        assert Next(w1, Continue(p), h) == w2;
      }
    }
  }

  /* ---- Every reachable world ------------------------------------------------------------------------ */

  ghost predicate Sound(w: World, h: Digester) {
    && Addressed(w.store, h)
    && (forall p <- w.tasks :: w.tasks[p].Purging? && w.tasks[p].pc >= 2 ==> w.tasks[p].digest in w.store.tombstones)
  }

  lemma StepIsSound(w: World, s: Step, h: Digester)
    requires Sound(w, h)
    ensures Sound(Next(w, s, h), h)
    ensures forall d :: d in w.store.blobs || d in w.store.tombstones ==>
                          d in Next(w, s, h).store.blobs || d in Next(w, s, h).store.tombstones
  {
  }

  /** In every interleaving each blob is filed under the digest of its bytes. */
  lemma {:induction false} EveryWorldIsSound(steps: seq<Step>, h: Digester)
    ensures Sound(RunSteps(START, steps, h), h)
  {
    if steps != [] {
      EveryWorldIsSound(steps[..|steps| - 1], h);
      StepIsSound(RunSteps(START, steps[..|steps| - 1], h), steps[|steps| - 1], h);
    }
  }

  /** And a blob never disappears without a tombstone. */
  lemma {:induction false} LossLeavesTombstone(w: World, steps: seq<Step>, digest: string, h: Digester)
    requires Sound(w, h) && digest in w.store.blobs
    ensures var after := RunSteps(w, steps, h);
            && Sound(after, h) && (digest in after.store.blobs || digest in after.store.tombstones)
  {
    if steps != [] {
      LossLeavesTombstone(w, steps[..|steps| - 1], digest, h);
      StepIsSound(RunSteps(w, steps[..|steps| - 1], h), steps[|steps| - 1], h);
    }
  }

  /* ---- What a purge takes ------------------------------------------------------------------------------ */

  lemma {:induction false} SubsetSize(a: set<string>, b: set<string>)
    requires a <= b
    ensures |a| <= |b|
    decreases |a|
  {
    if a != {} {
      var x :| x in a;
      SubsetSize(a - {x}, b - {x});
    }
  }

  /** Two rows are more than one. */
  lemma SharedMeansMany(s: Store, a: string, b: string)
    requires a in s.rows && b in s.rows && a != b && s.rows[a].digest == s.rows[b].digest
    ensures |RowsWith(s, s.rows[a].digest)| > 1
  {
    var both := {a, b};
    assert both <= RowsWith(s, s.rows[a].digest);
    SubsetSize(both, RowsWith(s, s.rows[a].digest));
  }

  /** A purge sets out on a digest exactly when, at its count, the purged row is
      the only one that carries it. */
  lemma PurgeStartsExactly(w: World, p: nat, id: string, digest: string, h: Digester)
    requires p !in w.tasks
    ensures Next(w, StartPurge(p, id), h).tasks == w.tasks[p := Purging(digest, 0)]
            <==> RowsWith(w.store, digest) == {id}
  {
    if id in w.store.rows {
      var d := w.store.rows[id].digest;
      if |RowsWith(w.store, d)| <= 1 {
        forall other <- RowsWith(w.store, d) ensures other == id {
          if other != id {
            SharedMeansMany(w.store, id, other);
          }
        }
        assert RowsWith(w.store, d) == {id};
        assert w.tasks[p := Purging(d, 0)][p] == Purging(d, 0);
      }
    }
    if RowsWith(w.store, digest) == {id} {
      assert id in RowsWith(w.store, digest);
    }
    assert w.tasks[p := Purging(digest, 0)][p] == Purging(digest, 0);
  }

  /** A blob disappears exactly in the last statement of a purge that set out on it. */
  lemma PurgeRemovesExactly(w: World, s: Step, digest: string, h: Digester)
    requires digest in w.store.blobs
    ensures digest !in Next(w, s, h).store.blobs
            <==> s.Continue? && s.p in w.tasks
                 && w.tasks[s.p].Purging? && w.tasks[s.p].digest == digest && w.tasks[s.p].pc >= 2
  {
  }

  /* ---- How long an artifact reads ------------------------------------------------------------------------ */

  /** Some purge is between its count and its unlink on this digest. */
  ghost predicate Pending(w: World, digest: string) {
    exists p <- w.tasks :: w.tasks[p].Purging? && w.tasks[p].digest == digest
  }

  /** The artifact's row is in, its blob is there, and no purge is on its way. */
  ghost predicate Settled(w: World, a: Artifact) {
    && a.id in w.store.rows && w.store.rows[a.id] == a
    && a.digest in w.store.blobs && !Pending(w, a.digest)
  }

  predicate Spares(steps: seq<Step>, id: string) {
    forall s <- steps :: s.StartPurge? ==> s.id != id
  }

  lemma SettledStep(w: World, s: Step, a: Artifact, h: Digester)
    requires Settled(w, a) && (s.StartPurge? ==> s.id != a.id)
    ensures Settled(Next(w, s, h), a)
  {
    var w' := Next(w, s, h);
    if s.StartPurge? && s.id in w.store.rows && w.store.rows[s.id].digest == a.digest {
      SharedMeansMany(w.store, s.id, a.id);
    }
    forall p <- w'.tasks ensures !(w'.tasks[p].Purging? && w'.tasks[p].digest == a.digest) {
      if p in w.tasks {
        assert !(w.tasks[p].Purging? && w.tasks[p].digest == a.digest);
      }
    }
  }

  lemma {:induction false} SettledStays(w: World, steps: seq<Step>, a: Artifact, h: Digester)
    requires Settled(w, a) && Spares(steps, a.id)
    ensures Settled(RunSteps(w, steps, h), a)
  {
    if steps != [] {
      var n := |steps| - 1;
      assert steps[n] in steps && forall s <- steps[..n] :: s in steps;
      SettledStays(w, steps[..n], a, h);
      SettledStep(RunSteps(w, steps[..n], h), steps[n], a, h);
    }
  }

  /** A purge that is on its way needs no more than three statements. */
  lemma PendingPurgeTakes(w: World, p: nat, digest: string, h: Digester) returns (steps: seq<Step>)
    requires p in w.tasks && w.tasks[p].Purging? && w.tasks[p].digest == digest
    ensures forall s <- steps :: s == Continue(p)
    ensures digest !in RunSteps(w, steps, h).store.blobs
  {
    var c := Continue(p);
    if digest !in w.store.blobs {
      steps := [];
    } else if w.tasks[p].pc >= 2 {
      steps := [c];
      assert steps[..0] == [];
    } else if w.tasks[p].pc == 1 {
      steps := [c, c];
      assert steps[..1] == [c] && [c][..0] == [];
      assert RunSteps(w, [c], h) == Next(w, c, h);
    } else {
      steps := [c, c, c];
      assert steps[..2] == [c, c] && [c, c][..1] == [c] && [c][..0] == [];
      assert RunSteps(w, [c], h) == Next(w, c, h);
      assert RunSteps(w, [c, c], h) == Next(Next(w, c, h), c, h);
    }
  }

  /** An artifact whose row has just come in reads for ever, in every continuation
      that does not purge it itself, exactly when no purge is between its count and
      its unlink on the artifact's digest at that moment. */
  lemma InsertedStaysReadable(w: World, a: Artifact, h: Digester)
    requires Sound(w, h) && a.id in w.store.rows && w.store.rows[a.id] == a && a.digest in w.store.blobs
    ensures (forall steps :: Spares(steps, a.id) ==> Read(RunSteps(w, steps, h).store, a.digest, h).Content?)
            <==> !Pending(w, a.digest)
  {
    if Pending(w, a.digest) {
      var p :| p in w.tasks && w.tasks[p].Purging? && w.tasks[p].digest == a.digest;
      var steps := PendingPurgeTakes(w, p, a.digest, h);
      assert Spares(steps, a.id);
    } else {
      forall steps | Spares(steps, a.id) ensures Read(RunSteps(w, steps, h).store, a.digest, h).Content? {
        SettledStays(w, steps, a, h);
        LossLeavesTombstone(w, steps, a.digest, h);
      }
    }
  }

  /** What it reads are the bytes it read before, or the two collide under the digest. */
  lemma ReadsTheSame(w: World, steps: seq<Step>, a: Artifact, h: Digester)
    requires Sound(w, h) && Settled(w, a) && Spares(steps, a.id)
    ensures var before, after := Read(w.store, a.digest, h), Read(RunSteps(w, steps, h).store, a.digest, h);
            && before.Content? && after.Content?
            && (before == after || (before.bytes != after.bytes && h(before.bytes) == h(after.bytes)))
  {
    SettledStays(w, steps, a, h);
    LossLeavesTombstone(w, steps, a.digest, h);
  }

  /** Every row of the run so far came in while its blob was there and no purge was
      on its way to it. */
  ghost predicate WellTimed(steps: seq<Step>, h: Digester) {
    forall i :: 0 <= i < |steps| && steps[i].InsertRow? ==>
      var w := RunSteps(START, steps[..i], h);
      steps[i].artifact.digest in w.store.blobs && !Pending(w, steps[i].artifact.digest)
  }

  lemma WellTimedParts(steps: seq<Step>, h: Digester)
    requires WellTimed(steps, h) && steps != []
    ensures var n := |steps| - 1;
            && WellTimed(steps[..n], h)
            && (steps[n].InsertRow? ==>
                  var w := RunSteps(START, steps[..n], h);
                  steps[n].artifact.digest in w.store.blobs && !Pending(w, steps[n].artifact.digest))
  {
    hide RunSteps, Pending;
    var n := |steps| - 1;
    forall i | 0 <= i < n ensures steps[..n][..i] == steps[..i] && steps[..n][i] == steps[i] {
    }
  }

  /** In a well-timed run every artifact that was not purged itself is readable. */
  lemma {:induction false} WellTimedRowsStay(steps: seq<Step>, a: Artifact, h: Digester)
    requires WellTimed(steps, h) && Spares(steps, a.id)
    ensures var w := RunSteps(START, steps, h);
            a.id in w.store.rows && w.store.rows[a.id] == a ==> Settled(w, a)
  {
    hide Next, Settled, Pending, WellTimed;
    if steps != [] {
      var n := |steps| - 1;
      var w := RunSteps(START, steps[..n], h);
      WellTimedParts(steps, h);
      assert steps == steps[..n] + [steps[n]];
      WellTimedRowsStay(steps[..n], a, h);
      if a.id in w.store.rows && w.store.rows[a.id] == a {
        SettledStep(w, steps[n], a, h);
      } else {
        RowComesIn(w, steps[n], a, h);
      }
    }
  }

  /** A row that was not there and is, came in by its own insertion. */
  lemma RowComesIn(w: World, s: Step, a: Artifact, h: Digester)
    requires !(a.id in w.store.rows && w.store.rows[a.id] == a)
    ensures var rows := Next(w, s, h).store.rows;
            a.id in rows && rows[a.id] == a ==>
              s == InsertRow(a) && (a.digest in w.store.blobs && !Pending(w, a.digest) ==> Settled(Next(w, s, h), a))
  {
  }

  /** Badly timed runs exist, before the row comes in and after. First: a write finds
      its bytes stored, a purge of the only row takes them, the new row points at
      nothing. Second: the purge has counted, the new row comes in while the blob is
      still there, and only then is the blob unlinked. */
  lemma SecondArtifactCanLoseItsBlob(h: Digester)
    returns (first: seq<Step>, second: seq<Step>, a: Artifact, b: Artifact)
    ensures a.digest == b.digest == h("ok") && a.id != b.id
    ensures var w := StartWrite(0, "ok", Binary, false, None);
            var written, go := [w, Continue(0), Continue(0), Continue(0), InsertRow(a), w], Continue(1);
            && first == written + [StartPurge(1, a.id), go, go, go, InsertRow(b)]
            && second == written + [StartPurge(1, a.id), InsertRow(b), go, go, go]
    ensures forall steps <- {first, second} ::
              var s := RunSteps(START, steps, h).store;
              Spares(steps, b.id) && b.id in s.rows && s.rows[b.id] == b && Read(s, b.digest, h) == NotFound
  {
    hide Next, RunSteps, RowsWith, AfterInsert, Read;
    a, b := Artifact("a", Binary, 2, h("ok"), false), Artifact("b", Binary, 2, h("ok"), false);
    var w := StartWrite(0, "ok", Binary, false, None);
    var written, go := [w, Continue(0), Continue(0), Continue(0), InsertRow(a), w], Continue(1);
    first := written + [StartPurge(1, a.id), go, go, go, InsertRow(b)];
    second := written + [StartPurge(1, a.id), InsertRow(b), go, go, go];
    var stored := World(Store(map[h("ok") := "ok"], {}, [], map["a" := a]), map[]);
    FirstSix(written, a, h);
    LastFive(first, written, stored, h);
    LastFive(second, written, stored, h);
    CountedOnce(stored, a, h);
    assert "a"[0] != "b"[0];
    TakenByPurge(stored.(tasks := map[1 := Purging(h("ok"), 0)]), b, h);
  }

  lemma CountedOnce(stored: World, a: Artifact, h: Digester)
    requires stored.tasks == map[] && stored.store.rows == map[a.id := a]
    ensures Next(stored, StartPurge(1, a.id), h) == stored.(tasks := map[1 := Purging(a.digest, 0)])
  {
    assert RowsWith(stored.store, a.digest) == {a.id};
  }

  /** The last three statements of the purge, before the new row and after it. */
  lemma TakenByPurge(counted: World, b: Artifact, h: Digester)
    requires counted.tasks == map[1 := Purging(b.digest, 0)]
    requires b.digest in counted.store.blobs && b.id !in counted.store.rows
    ensures var early := Next(Finish(counted, 1, h), InsertRow(b), h).store;
            b.id in early.rows && early.rows[b.id] == b && Read(early, b.digest, h) == NotFound
    ensures var late := Finish(Next(counted, InsertRow(b), h), 1, h).store;
            b.id in late.rows && late.rows[b.id] == b && Read(late, b.digest, h) == NotFound
  {
  }

  /** Running `more` after `steps`, statement by statement. */
  lemma LastFive(steps: seq<Step>, written: seq<Step>, w: World, h: Digester)
    requires |written| == 6 && |steps| == 11 && steps[..6] == written && RunSteps(START, written, h) == w
    ensures RunSteps(START, steps, h)
            == Next(Next(Next(Next(Next(w, steps[6], h), steps[7], h), steps[8], h), steps[9], h), steps[10], h)
  {
    hide Next, RunSteps;
    RunOneMore(steps, 6, h);
    RunOneMore(steps, 7, h);
    RunOneMore(steps, 8, h);
    RunOneMore(steps, 9, h);
    RunOneMore(steps, 10, h);
    assert steps[..11] == steps;
  }

  lemma RunOneMore(steps: seq<Step>, i: nat, h: Digester)
    requires i < |steps|
    ensures RunSteps(START, steps[..i + 1], h) == Next(RunSteps(START, steps[..i], h), steps[i], h)
  {
    assert steps[..i + 1][..i] == steps[..i];
  }

  lemma FirstSix(written: seq<Step>, a: Artifact, h: Digester)
    requires a.id == "a" && a.digest == h("ok")
    requires var w := StartWrite(0, "ok", Binary, false, None);
             written == [w, Continue(0), Continue(0), Continue(0), InsertRow(a), w]
    ensures RunSteps(START, written, h) == World(Store(map[h("ok") := "ok"], {}, [], map["a" := a]), map[])
  {
    hide Next, AfterWrite;
    FirstStep(written, h);
    RunOneMore(written, 1, h);
    RunOneMore(written, 2, h);
    RunOneMore(written, 3, h);
    RunOneMore(written, 4, h);
    RunOneMore(written, 5, h);
    assert written[..6] == written;
    WriteAlone(START, 0, "ok", Binary, false, None, h);
    WrittenTwice(a, h);
  }

  lemma FirstStep(steps: seq<Step>, h: Digester)
    requires steps != []
    ensures RunSteps(START, steps[..1], h) == Next(START, steps[0], h)
  {
    RunOneMore(steps, 0, h);
    assert steps[..0] == [];
  }

  /** A write into the empty store, its row, and a second write that finds the bytes. */
  lemma WrittenTwice(a: Artifact, h: Digester)
    requires a.id == "a" && a.digest == h("ok")
    ensures var w := StartWrite(0, "ok", Binary, false, None);
            var stored := START.(store := AfterWrite(START.store, "ok", Binary, false, None, 3, h));
            Next(Next(stored, InsertRow(a), h), w, h)
            == World(Store(map[h("ok") := "ok"], {}, [], map["a" := a]), map[])
  {
  }
}
