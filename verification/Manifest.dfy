/** File manifests of a worktree, their difference, and what the differences of
    successive rework rounds add up to (execution/validation.py). */
module Manifest {
  import opened Wrappers

  datatype FileType = RegularFile | Symlink

  datatype ManifestEntry = ManifestEntry(
    path: string, fileType: FileType, mode: int, size: nat,
    sha256: Option<string>, symlinkTarget: Option<string>)

  /** What makes two entries at one path the same: the size is not part of it. */
  datatype Identity = Identity(fileType: FileType, sha256: Option<string>, symlinkTarget: Option<string>, mode: int)

  function EntryIdentity(e: ManifestEntry): Identity {
    Identity(e.fileType, e.sha256, e.symlinkTarget, e.mode)
  }

  /** Two entries are told apart by type, bytes, link target and mode, and by nothing else. */
  predicate SameEntry(e: ManifestEntry, f: ManifestEntry) {
    e.fileType == f.fileType && e.sha256 == f.sha256 && e.symlinkTarget == f.symlinkTarget && e.mode == f.mode
  }

  type Tree = map<string, ManifestEntry>

  /** A manifest indexed by path. */
  function ByPath(manifest: seq<ManifestEntry>): Tree {
    Dict(manifest, (e: ManifestEntry) => e.path)
  }

  /** A path has the last entry listed for it. */
  lemma ByPathMeans(manifest: seq<ManifestEntry>, path: string)
    ensures path in ByPath(manifest) <==> exists i :: LastEntry(manifest, path, i)
    ensures forall i :: LastEntry(manifest, path, i) ==>
              path in ByPath(manifest) && ByPath(manifest)[path] == manifest[i]
  {
    hide Dict;
    var key := (e: ManifestEntry) => e.path;
    if path in ByPath(manifest) {
      var i := DictHas(manifest, key, path);
      assert LastEntry(manifest, path, i);
    }
    forall i | LastEntry(manifest, path, i)
      ensures path in ByPath(manifest) && ByPath(manifest)[path] == manifest[i]
    {
      DictKeepsLast(manifest, key, i);
    }
  }

  predicate LastEntry(manifest: seq<ManifestEntry>, path: string, i: int) {
    0 <= i < |manifest| && manifest[i].path == path && forall j :: i < j < |manifest| ==> manifest[j].path != path
  }

  function ContentAt(tree: Tree, path: string): Option<Identity> {
    if path in tree then Some(EntryIdentity(tree[path])) else None
  }

  ghost predicate SameContent(a: Tree, b: Tree) {
    forall path :: ContentAt(a, path) == ContentAt(b, path)
  }

  /* ---- The difference of two manifests ---------------------------------------------- */

  datatype ManifestDiff = ManifestDiff(
    added: seq<string>, modified: seq<string>, deleted: seq<string>, untouched: seq<string>)

  /** The changed paths in the order the scope check walks them. */
  function ChangedPaths(d: ManifestDiff): seq<string> {
    d.added + d.modified + d.deleted
  }

  predicate NoDuplicates(l: seq<string>) {
    forall i, j :: 0 <= i < j < |l| ==> l[i] != l[j]
  }

  predicate Lists(l: seq<string>, s: set<string>) {
    NoDuplicates(l) && (forall x <- l :: x in s) && (forall x <- s :: x in l)
  }

  ghost predicate IsDiff(b: Tree, r: Tree, d: ManifestDiff) {
    && Lists(d.added, r.Keys - b.Keys)
    && Lists(d.deleted, b.Keys - r.Keys)
    && NoDuplicates(d.modified) && NoDuplicates(d.untouched)
    && (forall p :: p in d.modified <==> p in b && p in r && !SameEntry(b[p], r[p]))
    && (forall p :: p in d.untouched <==> p in b && p in r && SameEntry(b[p], r[p]))
  }

  method Listed(s: set<string>) returns (l: seq<string>)
    ensures Lists(l, s)
  {
    l := [];
    var todo := s;
    while todo != {}
      invariant todo <= s && Lists(l, s - todo)
    {
      var x :| x in todo;
      l := l + [x];
      todo := todo - {x};
    }
  }

  /** `diff_manifests` */
  method DiffManifests(baseline: seq<ManifestEntry>, result: seq<ManifestEntry>) returns (d: ManifestDiff)
    ensures IsDiff(ByPath(baseline), ByPath(result), d)
  {
    var b, r := ByPath(baseline), ByPath(result);
    var added := Listed(r.Keys - b.Keys);
    var deleted := Listed(b.Keys - r.Keys);
    var both := Listed(b.Keys * r.Keys);
    var modified, untouched := [], [];
    for i := 0 to |both|
      invariant NoDuplicates(modified) && NoDuplicates(untouched)
      invariant forall p :: p in modified <==> p in both[..i] && p in b && p in r && !SameEntry(b[p], r[p])
      invariant forall p :: p in untouched <==> p in both[..i] && p in b && p in r && SameEntry(b[p], r[p])
    {
      assert both[..i + 1] == both[..i] + [both[i]];
      assert both[i] !in both[..i] && both[i] in both;
      if EntryIdentity(b[both[i]]) == EntryIdentity(r[both[i]]) {
        untouched := untouched + [both[i]];
      } else {
        modified := modified + [both[i]];
      }
    }
    assert both[..|both|] == both;
    d := ManifestDiff(added, modified, deleted, untouched);
  }

  /** What is told apart: another type, other bytes, another link target or another mode. */
  lemma ModifiedMeans(b: Tree, r: Tree, d: ManifestDiff, p: string)
    requires IsDiff(b, r, d)
    ensures p in d.modified <==>
              && p in b && p in r
              && (b[p].fileType != r[p].fileType || b[p].sha256 != r[p].sha256
                  || b[p].symlinkTarget != r[p].symlinkTarget || b[p].mode != r[p].mode)
    ensures p in d.untouched <==>
              && p in b && p in r && b[p].fileType == r[p].fileType && b[p].sha256 == r[p].sha256
              && b[p].symlinkTarget == r[p].symlinkTarget && b[p].mode == r[p].mode
  {
  }

  /** The changed paths, each listed once, are exactly those whose content differs. */
  lemma ChangesAreDifferences(b: Tree, r: Tree, d: ManifestDiff)
    requires IsDiff(b, r, d)
    ensures forall p :: p in ChangedPaths(d) <==> ContentAt(b, p) != ContentAt(r, p)
    ensures NoDuplicates(ChangedPaths(d))
  {
    forall p ensures p in ChangedPaths(d) <==> p in d.added || p in d.modified || p in d.deleted {
    }
    DisjointLists(d.added, d.modified);
    DisjointLists(d.added + d.modified, d.deleted);
  }

  lemma DisjointLists(a: seq<string>, b: seq<string>)
    requires NoDuplicates(a) && NoDuplicates(b) && forall x <- a :: x !in b
    ensures NoDuplicates(a + b)
  {
    forall i, j | 0 <= i < j < |a + b| ensures (a + b)[i] != (a + b)[j] {
      if i < |a| <= j {
        assert a[i] in a && b[j - |a|] in b;
      }
    }
  }

  /** The four lists split the paths of both manifests. */
  lemma DiffPartitions(b: Tree, r: Tree, d: ManifestDiff, p: string)
    requires IsDiff(b, r, d)
    ensures p in b.Keys + r.Keys <==> p in d.added || p in d.modified || p in d.deleted || p in d.untouched
    ensures p in d.added ==> p !in d.modified && p !in d.deleted && p !in d.untouched
    ensures p in d.modified ==> p !in d.deleted && p !in d.untouched
    ensures p in d.deleted ==> p !in d.untouched
  {
  }

  /** `base` with the paths in `paths` brought to what `source` has there. */
  function Patch(base: Tree, paths: set<string>, source: Tree): Tree {
    map p | p in (base.Keys - paths) + (source.Keys * paths) :: if p in paths then source[p] else base[p]
  }

  /** The diff is the least patch: bringing over a set of paths turns the baseline
      into the result, up to entry identity, exactly when the set has every
      changed path. */
  lemma PatchLaw(b: Tree, r: Tree, d: ManifestDiff, paths: set<string>)
    requires IsDiff(b, r, d)
    ensures SameContent(Patch(b, paths, r), r) <==> forall p <- ChangedPaths(d) :: p in paths
  {
    ChangesAreDifferences(b, r, d);
    forall p ensures ContentAt(Patch(b, paths, r), p) == ContentAt(if p in paths then r else b, p) {
    }
    if SameContent(Patch(b, paths, r), r) {
      forall p <- ChangedPaths(d) ensures p in paths {
        assert ContentAt(Patch(b, paths, r), p) == ContentAt(r, p);
      }
    }
  }

  /* ---- Rework rounds ------------------------------------------------------------------ */

  /** One attempt: the tree it starts from, the tree the worker leaves, and the
      tree the host checks leave; with the two diffs taken. */
  datatype Round = Round(baseline: Tree, result: Tree, postTest: Tree, diff: ManifestDiff, sideEffects: ManifestDiff)

  ghost predicate RoundFits(a: Round) {
    IsDiff(a.baseline, a.result, a.diff) && IsDiff(a.result, a.postTest, a.sideEffects)
  }

  /** The baseline rolls forward: each round starts from what the last one left. */
  ghost predicate RollsForward(rounds: seq<Round>) {
    && (forall i :: 0 <= i < |rounds| ==> RoundFits(rounds[i]))
    && (forall i, j :: 0 <= i < j < |rounds| && j == i + 1 ==> rounds[j].baseline == rounds[i].postTest)
  }

  predicate Reports(a: Round, path: string) {
    path in ChangedPaths(a.diff) || path in ChangedPaths(a.sideEffects)
  }

  lemma RoundReports(a: Round, path: string)
    requires RoundFits(a) && ContentAt(a.baseline, path) != ContentAt(a.postTest, path)
    ensures Reports(a, path)
  {
    ChangesAreDifferences(a.baseline, a.result, a.diff);
    ChangesAreDifferences(a.result, a.postTest, a.sideEffects);
  }

  /** Nothing escapes the sum of the rounds: a path that differs between the first
      baseline and the last post-test tree is reported by some round. */
  lemma {:induction false} EveryChangeIsReported(rounds: seq<Round>, path: string) returns (i: nat)
    requires RollsForward(rounds) && rounds != []
    requires ContentAt(rounds[0].baseline, path) != ContentAt(rounds[|rounds| - 1].postTest, path)
    ensures i < |rounds| && Reports(rounds[i], path)
  {
    var n := |rounds| - 1;
    if ContentAt(rounds[n].baseline, path) != ContentAt(rounds[n].postTest, path) {
      RoundReports(rounds[n], path);
      i := n;
    } else {
      assert n > 0;
      var earlier := rounds[..n];
      assert rounds[n].baseline == earlier[n - 1].postTest;
      i := EveryChangeIsReported(earlier, path);
    }
  }
}
