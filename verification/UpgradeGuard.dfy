// The configuration migration guard (backup/preupgrade_guard.py): a snapshot
// before the first migration, a rollback that can be interrupted and rerun,
// and a commit, as scripts of disk operations.

module UpgradeGuard {
  import opened DiskTree
  import opened Options

  // ---------- What is saved ----------

  // Runtime files and the guard's own are not part of a snapshot.
  predicate SavedName(p: Path)
  {
    && p != [] && p[0] != BACKUP_DIR && ".." !in p
    && var last := p[|p| - 1];
    last != PENDING && last != READY && !EndsWith(last, "-wal") && !EndsWith(last, "-shm")
    && !StartsWith(last, ".webobs-")
  }

  predicate IsSaved(t: Tree, p: Path)
  {
    p in t && t[p].File? && SavedName(p)
  }

  function SavedFiles(t: Tree): map<Path, Content>
  {
    map p | p in t && IsSaved(t, p) && Captured(t, p).Some? :: Captured(t, p).value
  }

  // Every saved file can be copied: its databases are sound.
  predicate Capturable(t: Tree)
  {
    forall p :: p in t && IsSaved(t, p) ==> Captured(t, p).Some?
  }

  // The files of a configuration as a backup stores them.
  type Original = map<Path, Option<Content>>

  // A log is a runtime file, and none of the guard's own.
  lemma LogIsRuntime(p: Path)
    requires SavedName(p)
    ensures !SavedName(LogPath(p)) && !Protected(LogPath(p)) && LogPath(p)[0] != BACKUP_DIR
    ensures LogPath(p) != [] && !EndsWith(LogPath(p)[|LogPath(p)| - 1], ".tmp")
  {
    var log := LogPath(p);
    var last := log[|log| - 1];
    assert last[|last| - 4..] == "-wal";
    assert |BACKUP_DIR| == 16 && BACKUP_DIR[12..] == "kups";
    assert |PENDING| == 27 && PENDING[23..] == "json";
    assert "-wal"[0] == '-' && ".tmp"[0] == '.' && "kups"[0] == 'k' && "json"[0] == 'j';
  }

  // The name a marker is written under before it is renamed into place; a
  // crash can leave such a file behind.
  function TempOf(name: string, unique: string): string { "." + name + "." + unique + ".tmp" }

  predicate IsTemp(p: Path)
  {
    |p| == 1 && EndsWith(p[0], ".tmp")
    && (StartsWith(p[0], "." + PENDING + ".") || StartsWith(p[0], "." + READY + "."))
  }

  lemma TempIsTemp(name: string, unique: string)
    requires name == PENDING || name == READY
    ensures IsTemp([TempOf(name, unique)])
    ensures TempOf(name, unique) != PENDING && TempOf(name, unique) != READY && TempOf(name, unique) != BACKUP_DIR
  {
    var prefix := "." + name + ".";
    assert TempOf(name, unique) == prefix + (unique + ".tmp") == (prefix + unique) + ".tmp";
    assert |PENDING| == 27 && |READY| == 24 && |BACKUP_DIR| == 16;
  }

  // ---------- Scripts ----------

  // mkdir with parents, down to and including p.
  function EnsureAll(p: Path): seq<Op>
  {
    if p == [] then [] else EnsureAll(p[..|p| - 1]) + [EnsureDir(p)]
  }

  // A copy is not atomic: until it is complete the file holds something else.
  function CopyTo(dest: Path, junk: Content, content: Content): seq<Op>
    requires dest != []
  {
    EnsureAll(dest[..|dest| - 1]) + [Put(dest, junk), Put(dest, content)]
  }

  function AtomicJson(path: Path, temp: Path, junk: Content, content: Content): seq<Op>
  {
    [Create(temp, junk), Put(temp, content), Rename(temp, path)]
  }

  function Clears(listing: seq<Path>): seq<Op>
  {
    if listing == [] then [] else Clears(listing[..|listing| - 1]) + [Clear(listing[|listing| - 1])]
  }

  function RestoreOne(t: Tree, name: string, rel: Path, junk: Content): seq<Op>
  {
    if rel == [] || At(name, rel) !in t || t[At(name, rel)].Other? then [Raise]
    else if t[At(name, rel)].Dir? then EnsureAll(rel)
    else CopyTo(rel, junk, t[At(name, rel)].content)
  }

  function RestoreAll(t: Tree, name: string, rels: seq<Path>, junk: Path -> Content): seq<Op>
  {
    if rels == [] then []
    else RestoreAll(t, name, rels[..|rels| - 1], junk) + RestoreOne(t, name, rels[|rels| - 1], junk(rels[|rels| - 1]))
  }

  // The marker in the tree names this backup.
  predicate PendingNames(t: Tree, name: string)
  {
    [PENDING] in t && t[[PENDING]] == File(Marker(name))
  }

  ghost function RollbackScript(t: Tree, name: string, listing: seq<Path>, rels: seq<Path>,
                                junk: Path -> Content): seq<Op>
  {
    if PendingNames(t, name) && Verified(t, name)
    then Clears(listing) + RestoreAll(t, name, rels, junk) + [Unlink([PENDING])]
    else [Raise]
  }

  // Every entry once, deeper ones first: the order of a rollback's clearing.
  ghost predicate IsListing(t: Tree, listing: seq<Path>)
  {
    && (forall p :: p in t <==> p in listing)
    && (forall i, j :: 0 <= i < j < |listing| ==> listing[i] != listing[j] && |listing[i]| >= |listing[j]|)
  }

  ghost predicate IsSnapshotListing(t: Tree, name: string, rels: seq<Path>)
  {
    forall rel :: rel in rels <==> rel != [] && At(name, rel) in t
  }

  predicate HasOther(t: Tree) { exists p :: p in t && t[p].Other? }

  predicate HasOtherOutside(t: Tree) { exists p :: p in t && t[p].Other? && !Protected(p) }

  // ---------- Directories with their parents ----------

  predicate CanBeDir(t: Tree, p: Path) { p in t ==> t[p].Dir? }

  ghost predicate DirsTo(u: Tree, p: Path)
  {
    forall n :: 0 < n <= |p| ==> p[..n] in u && u[p[..n]].Dir?
  }

  // Nothing changed but new directories on the way to p.
  ghost predicate OnlyAdds(t: Tree, u: Tree, p: Path)
  {
    forall q :: SameAt(t, u, q) || AddedDir(t, u, p, q)
  }

  predicate AddedDir(t: Tree, u: Tree, p: Path, q: Path)
  {
    q in u && u[q].Dir? && q !in t && 0 < |q| <= |p| && p[..|q|] == q
  }

  lemma EnsureOne(t: Tree, u: Tree, p: Path)
    requires p != [] && DirsTo(u, p[..|p| - 1]) && OnlyAdds(t, u, p[..|p| - 1]) && CanBeDir(t, p)
    ensures var d := Apply(Disk(u, true), EnsureDir(p)); d.ok && DirsTo(d.tree, p) && OnlyAdds(t, d.tree, p)
  {
    var parent := p[..|p| - 1];
    assert parent[..|parent|] == parent;
    assert HasParent(u, p);
    assert SameAt(t, u, p) || AddedDir(t, u, parent, p);
    var d := Apply(Disk(u, true), EnsureDir(p));
    forall n | 0 < n <= |p| ensures p[..n] in d.tree && d.tree[p[..n]].Dir? {
      if n < |p| {
        assert parent[..n] == p[..n];
      } else {
        assert p[..n] == p;
      }
    }
    forall q ensures SameAt(t, d.tree, q) || AddedDir(t, d.tree, p, q) {
      assert SameAt(t, u, q) || AddedDir(t, u, parent, q);
      if q == p {
        assert p[..|p|] == p;
      } else if AddedDir(t, u, parent, q) {
        assert parent[..|q|] == p[..|q|];
      }
    }
  }

  // Directories that exist or can be made are made, and nothing else changes.
  lemma {:induction false} EnsureAllRuns(t: Tree, p: Path)
    requires forall n :: 0 < n <= |p| ==> CanBeDir(t, p[..n])
    ensures var d := Run(Disk(t, true), EnsureAll(p)); d.ok && DirsTo(d.tree, p) && OnlyAdds(t, d.tree, p)
    decreases |p|
  {
    hide DirsTo;
    hide OnlyAdds;
    hide Apply;
    if p == [] {
      NothingToAdd(t);
    } else {
      var parent := p[..|p| - 1];
      forall n | 0 < n <= |parent| ensures CanBeDir(t, parent[..n]) {
        assert parent[..n] == p[..n];
      }
      EnsureAllRuns(t, parent);
      assert EnsureAll(p)[..|EnsureAll(p)| - 1] == EnsureAll(parent);
      assert p[..|p|] == p;
      EnsureOne(t, Run(Disk(t, true), EnsureAll(parent)).tree, p);
    }
  }

  lemma NothingToAdd(t: Tree)
    ensures DirsTo(t, []) && OnlyAdds(t, t, [])
  {
  }

  // ---------- Clearing the tree ----------

  // The tree without the unprotected paths listed so far.
  ghost predicate ClearedSoFar(t: Tree, u: Tree, listing: seq<Path>, i: nat)
    requires i <= |listing|
  {
    && (forall p :: p in u <==> p in t && (Protected(p) || p !in listing[..i]))
    && (forall p :: p in u ==> u[p] == t[p])
  }

  lemma LaterIsNotDeeper(t: Tree, u: Tree, listing: seq<Path>, i: nat, q: Path)
    requires IsListing(t, listing) && i < |listing| && ClearedSoFar(t, u, listing, i) && q in u && !Protected(q)
    ensures |q| <= |listing[i]|
  {
    assert q in listing;
    var j :| 0 <= j < |listing| && listing[j] == q;
    assert j >= i;
  }

  lemma BelowIsUnprotected(p: Path, q: Path)
    requires p != [] && !Protected(p)
    ensures |q| <= |p| || q[..|p|] != p || !Protected(q)
  {
    if |q| > |p| && q[..|p|] == p {
      assert q[..|p|][0] == p[0];
    }
  }

  // When a directory's turn comes, everything below it is gone.
  lemma BelowIsCleared(t: Tree, u: Tree, listing: seq<Path>, i: nat)
    requires IsListing(t, listing) && i < |listing| && ClearedSoFar(t, u, listing, i)
    requires listing[i] != [] && !Protected(listing[i])
    ensures IsEmptyDir(u, listing[i])
  {
    hide IsListing;
    hide ClearedSoFar;
    hide Protected;
    forall q | q in u ensures |q| <= |listing[i]| || q[..|listing[i]|] != listing[i] {
      BelowIsUnprotected(listing[i], q);
      if !Protected(q) {
        LaterIsNotDeeper(t, u, listing, i, q);
      }
    }
  }

  lemma ListedOnce(t: Tree, listing: seq<Path>, i: nat)
    requires IsListing(t, listing) && i < |listing|
    ensures listing[i] in t && listing[i] !in listing[..i]
  {
    assert listing[i] in listing;
    forall j | 0 <= j < i ensures listing[j] != listing[i] {
    }
  }

  // When a path's turn comes it is still there.
  lemma TurnComes(t: Tree, u: Tree, listing: seq<Path>, i: nat)
    requires i < |listing| && ClearedSoFar(t, u, listing, i)
    requires !Protected(listing[i]) && listing[i] in t && listing[i] !in listing[..i]
    ensures listing[i] in u && u[listing[i]] == t[listing[i]]
    ensures ClearedSoFar(t, u - {listing[i]}, listing, i + 1)
  {
    hide Protected;
    assert listing[..i + 1] == listing[..i] + [listing[i]];
  }

  lemma TurnSkipped(t: Tree, u: Tree, listing: seq<Path>, i: nat)
    requires i < |listing| && ClearedSoFar(t, u, listing, i) && Protected(listing[i])
    ensures ClearedSoFar(t, u, listing, i + 1)
  {
    assert listing[..i + 1] == listing[..i] + [listing[i]];
  }

  lemma ClearNext(t: Tree, u: Tree, listing: seq<Path>, i: nat)
    requires IsListing(t, listing) && WellFormed(t) && i < |listing| && ClearedSoFar(t, u, listing, i)
    requires !HasOtherOutside(t)
    ensures var d := Apply(Disk(u, true), Clear(listing[i])); d.ok && ClearedSoFar(t, d.tree, listing, i + 1)
  {
    hide IsEmptyDir;
    hide WellFormed;
    hide ClearedSoFar;
    hide IsListing;
    hide Protected;
    ListedOnce(t, listing, i);
    NotEmpty(t, listing[i]);
    if Protected(listing[i]) {
      TurnSkipped(t, u, listing, i);
    } else {
      BelowIsCleared(t, u, listing, i);
      TurnComes(t, u, listing, i);
    }
  }

  lemma NotEmpty(t: Tree, p: Path)
    requires WellFormed(t) && p in t
    ensures p != []
  {
  }

  lemma {:induction false} ClearsRun(t: Tree, listing: seq<Path>, i: nat)
    requires IsListing(t, listing) && i <= |listing| && !HasOtherOutside(t) && WellFormed(t)
    ensures var d := Run(Disk(t, true), Clears(listing[..i])); d.ok && ClearedSoFar(t, d.tree, listing, i)
  {
    hide ClearedSoFar;
    hide Apply;
    if i == 0 {
      NothingCleared(t, listing);
    } else {
      ClearsRun(t, listing, i - 1);
      assert listing[..i][..i - 1] == listing[..i - 1];
      var ops := Clears(listing[..i]);
      assert ops[..|ops| - 1] == Clears(listing[..i - 1]);
      ClearNext(t, Run(Disk(t, true), Clears(listing[..i - 1])).tree, listing, i - 1);
    }
  }

  lemma NothingCleared(t: Tree, listing: seq<Path>)
    ensures ClearedSoFar(t, t, listing, 0)
  {
  }

  lemma {:induction false} ClearsTouch(listing: seq<Path>, q: Path)
    ensures |Clears(listing)| == |listing|
    ensures forall i :: 0 <= i < |listing| ==> Clears(listing)[i] == Clear(listing[i])
    ensures Protected(q) || q !in listing ==> forall i :: 0 <= i < |Clears(listing)| ==> !Touches(Clears(listing)[i], q)
  {
    if listing != [] {
      ClearsTouch(listing[..|listing| - 1], q);
    }
  }

  lemma {:induction false} ClearsSplit(a: seq<Path>, b: seq<Path>)
    ensures Clears(a + b) == Clears(a) + Clears(b)
  {
    if b == [] {
      assert a + b == a;
    } else {
      ClearsSplit(a, b[..|b| - 1]);
      assert (a + b)[..|a + b| - 1] == a + b[..|b| - 1];
    }
  }

  // A link or device outside the backup directory stops the clearing.
  lemma ClearsStop(t: Tree, listing: seq<Path>, p: Path)
    requires IsListing(t, listing) && p in t && t[p].Other? && !Protected(p)
    ensures !Run(Disk(t, true), Clears(listing)).ok
  {
    hide IsListing;
    hide Protected;
    var i := IndexIn(t, listing, p);
    var before, after := listing[..i], listing[i + 1..];
    ClearsTouch(before, p);
    RunFrame(Disk(t, true), Clears(before), p);
    assert listing == before + [p] + after;
    ClearsSplit(before + [p], after);
    assert (before + [p])[..|before|] == before;
    var d := Run(Disk(t, true), Clears(before));
    var ops := Clears(before + [p]);
    assert ops == Clears(before) + [Clear(p)];
    assert ops[..|ops| - 1] == Clears(before);
    assert !Run(Disk(t, true), ops).ok;
    RunConcat(Disk(t, true), ops, Clears(after));
    RunAfterError(Run(Disk(t, true), ops), Clears(after));
  }

  lemma IndexIn(t: Tree, listing: seq<Path>, p: Path) returns (i: nat)
    requires IsListing(t, listing) && p in t
    ensures i < |listing| && listing[i] == p && p !in listing[..i]
  {
    assert p in listing;
    i :| i < |listing| && listing[i] == p;
    forall j | 0 <= j < i ensures listing[j] != p {
      assert listing[j] != listing[i];
    }
  }

  // ---------- Restoring the snapshot ----------

  // A snapshot that can be put back: it is well formed on its own and holds
  // nothing that a rollback protects.
  ghost predicate Sound(t: Tree, name: string)
  {
    forall rel :: rel != [] && At(name, rel) in t ==> SoundAt(t, name, rel)
  }

  ghost predicate SoundAt(t: Tree, name: string, rel: Path)
    requires At(name, rel) in t
  {
    && !Protected(rel) && !t[At(name, rel)].Other?
    && (t[At(name, rel)].File? ==> SavedName(rel))
  }

  // Outside what is protected there is nothing but snapshot entries.
  ghost predicate Inside(t: Tree, u: Tree, name: string)
  {
    forall q :: if Protected(q) then SameAt(t, u, q)
                else q in u ==> q != [] && At(name, q) in t && u[q] == t[At(name, q)]
  }

  lemma SnapshotDirs(t: Tree, name: string, rel: Path, n: nat)
    requires WellFormed(t) && rel != [] && At(name, rel) in t && 0 < n <= |rel|
    ensures At(name, rel[..n]) in t
    ensures n < |rel| ==> t[At(name, rel[..n])].Dir?
  {
    assert rel[..|rel|] == rel;
    if n < |rel| {
      AncestorsAreDirs(t, At(name, rel), 3 + n);
      assert At(name, rel)[..3 + n] == At(name, rel[..n]);
    }
  }

  // The way to a snapshot entry can be made in a tree that has nothing else.
  lemma RestoreDirs(t: Tree, u: Tree, name: string, rel: Path, dir: Path)
    requires WellFormed(t) && Sound(t, name) && Inside(t, u, name) && rel != [] && At(name, rel) in t
    requires dir <= rel && (dir == rel ==> t[At(name, rel)].Dir?)
    ensures var d := Run(Disk(u, true), EnsureAll(dir));
      d.ok && Inside(t, d.tree, name) && DirsTo(d.tree, dir) && (forall q :: q in u ==> q in d.tree)
  {
    forall n | 0 < n <= |dir| ensures At(name, dir[..n]) in t && t[At(name, dir[..n])].Dir? && !Protected(dir[..n]) {
      assert dir[..n] == rel[..n];
      SnapshotDirs(t, name, rel, n);
      assert SoundAt(t, name, rel[..n]);
      if n == |rel| {
        assert rel[..n] == rel;
      }
    }
    EnsureAllRuns(u, dir);
    var d := Run(Disk(u, true), EnsureAll(dir));
    forall q ensures if Protected(q) then SameAt(t, d.tree, q)
                     else q in d.tree ==> q != [] && At(name, q) in t && d.tree[q] == t[At(name, q)] {
      assert SameAt(u, d.tree, q) || AddedDir(u, d.tree, dir, q);
      if AddedDir(u, d.tree, dir, q) {
        assert dir[..|q|] == q;
      }
    }
    forall q | q in u ensures q in d.tree {
      assert SameAt(u, d.tree, q) || AddedDir(u, d.tree, dir, q);
    }
  }

  lemma PutTwice(t: Tree, p: Path, junk: Content, c: Content)
    requires p != [] && HasParent(t, p) && (p in t ==> t[p].File?)
    ensures Run(Disk(t, true), [Put(p, junk), Put(p, c)]) == Disk(t[p := File(c)], true)
  {
    var ops := [Put(p, junk), Put(p, c)];
    assert ops[..1] == [Put(p, junk)] && ops[..1][..0] == [];
    assert Run(Disk(t, true), ops[..1]) == Disk(t[p := File(junk)], true);
    assert HasParent(t[p := File(junk)], p);
    assert t[p := File(junk)][p := File(c)] == t[p := File(c)];
  }

  lemma CopyRuns(t: Tree, p: Path, junk: Content, c: Content, v: Tree)
    requires p != [] && Run(Disk(t, true), EnsureAll(p[..|p| - 1])) == Disk(v, true)
    requires DirsTo(v, p[..|p| - 1]) && (p in v ==> v[p].File?)
    ensures Run(Disk(t, true), CopyTo(p, junk, c)) == Disk(v[p := File(c)], true)
  {
    var parent := p[..|p| - 1];
    assert parent[..|parent|] == parent;
    assert HasParent(v, p);
    PutTwice(v, p, junk, c);
    RunConcat(Disk(t, true), EnsureAll(parent), [Put(p, junk), Put(p, c)]);
  }

  lemma InsideWithFile(t: Tree, u: Tree, name: string, rel: Path)
    requires Inside(t, u, name) && rel != [] && At(name, rel) in t && !Protected(rel)
    ensures Inside(t, u[rel := t[At(name, rel)]], name)
  {
  }

  lemma RestoreOneRuns(t: Tree, u: Tree, name: string, rel: Path, junk: Content)
    requires WellFormed(t) && Sound(t, name) && Inside(t, u, name) && rel != [] && At(name, rel) in t
    ensures var d := Run(Disk(u, true), RestoreOne(t, name, rel, junk));
      d.ok && Inside(t, d.tree, name) && rel in d.tree && (forall q :: q in u ==> q in d.tree)
  {
    assert SoundAt(t, name, rel);
    if t[At(name, rel)].Dir? {
      RestoreDirs(t, u, name, rel, rel);
      assert rel[..|rel|] == rel;
    } else {
      var parent := rel[..|rel| - 1];
      RestoreDirs(t, u, name, rel, parent);
      var v := Run(Disk(u, true), EnsureAll(parent)).tree;
      CopyRuns(u, rel, junk, t[At(name, rel)].content, v);
      InsideWithFile(t, v, name, rel);
    }
  }

  lemma {:induction false} RestoreAllRuns(t: Tree, u: Tree, name: string, rels: seq<Path>, junk: Path -> Content)
    requires WellFormed(t) && Sound(t, name) && Inside(t, u, name)
    requires forall rel :: rel in rels ==> rel != [] && At(name, rel) in t
    ensures var d := Run(Disk(u, true), RestoreAll(t, name, rels, junk));
      d.ok && Inside(t, d.tree, name) && (forall rel :: rel in rels ==> rel in d.tree)
  {
    hide Run;
    hide Apply;
    hide WellFormed;
    hide Sound;
    hide Inside;
    hide RestoreOne;
    RunNothing(Disk(u, true));
    if rels != [] {
      var before, rel := rels[..|rels| - 1], rels[|rels| - 1];
      assert rel in rels;
      forall x | x in before ensures x != [] && At(name, x) in t {
        assert x in rels;
      }
      RestoreAllRuns(t, u, name, before, junk);
      var d := Run(Disk(u, true), RestoreAll(t, name, before, junk));
      RestoreOneRuns(t, d.tree, name, rel, junk(rel));
      RunConcat(Disk(u, true), RestoreAll(t, name, before, junk), RestoreOne(t, name, rel, junk(rel)));
      assert rels == before + [rel];
    }
  }

  lemma RunNothing(d: Disk)
    ensures Run(d, []) == d
  {
  }

  lemma RunOne(d: Disk, op: Op)
    ensures Run(d, [op]) == Apply(d, op)
  {
    assert [op][..0] == [];
  }

  // The tree that a rollback is for: the snapshot's entries, what is
  // protected, and no marker.
  ghost predicate Restored(t: Tree, u: Tree, name: string)
  {
    forall q :: if q == [PENDING] then q !in u
                else if Protected(q) then SameAt(t, u, q)
                else (q in u <==> q != [] && At(name, q) in t) && (q in u ==> u[q] == t[At(name, q)])
  }

  lemma RollbackStops(t: Tree, listing: seq<Path>, restores: seq<Op>, p: Path)
    requires IsListing(t, listing) && p in t && t[p].Other? && !Protected(p)
    ensures !Run(Disk(t, true), Clears(listing) + restores + [Unlink([PENDING])]).ok
  {
    var d := Run(Disk(t, true), Clears(listing));
    ClearsStop(t, listing, p);
    RunConcat(Disk(t, true), Clears(listing) + restores, [Unlink([PENDING])]);
    RunConcat(Disk(t, true), Clears(listing), restores);
    RunAfterError(d, restores);
    RunAfterError(d, [Unlink([PENDING])]);
  }

  lemma RollbackCompletes(t: Tree, name: string, listing: seq<Path>, rels: seq<Path>, junk: Path -> Content)
    requires WellFormed(t) && PendingNames(t, name) && Sound(t, name) && !HasOtherOutside(t)
    requires IsListing(t, listing) && IsSnapshotListing(t, name, rels)
    ensures var d := Run(Disk(t, true), Clears(listing) + RestoreAll(t, name, rels, junk) + [Unlink([PENDING])]);
      d.ok && Restored(t, d.tree, name)
  {
    hide Run;
    hide WellFormed;
    hide Sound;
    hide IsListing;
    hide HasOtherOutside;
    hide Clears;
    hide RestoreAll;
    hide ClearedSoFar;
    hide Inside;
    hide Restored;
    var clears, restores := Clears(listing), RestoreAll(t, name, rels, junk);
    assert listing[..|listing|] == listing;
    ClearsRun(t, listing, |listing|);
    var u := Run(Disk(t, true), clears).tree;
    ClearedIsInside(t, u, name, listing);
    RestoreAllRuns(t, u, name, rels, junk);
    var v := Run(Disk(u, true), restores).tree;
    RunConcat(Disk(t, true), clears, restores);
    RunConcat(Disk(t, true), clears + restores, [Unlink([PENDING])]);
    RunOne(Disk(v, true), Unlink([PENDING]));
    MarkerInside(t, v, name);
    FinishRestored(t, v, name, rels);
  }

  lemma MarkerInside(t: Tree, v: Tree, name: string)
    requires Inside(t, v, name)
    ensures SameAt(t, v, [PENDING])
  {
    assert Protected([PENDING]);
  }

  // A rollback that is not interrupted completes if and only if no link or
  // device is outside the backup directory, and then the tree is the snapshot.
  lemma RollbackRestores(t: Tree, name: string, listing: seq<Path>, rels: seq<Path>, junk: Path -> Content)
    requires WellFormed(t) && PendingNames(t, name) && Verified(t, name) && Sound(t, name)
    requires IsListing(t, listing) && IsSnapshotListing(t, name, rels)
    ensures var d := Run(Disk(t, true), RollbackScript(t, name, listing, rels, junk));
      (d.ok <==> !HasOtherOutside(t)) && (d.ok ==> Restored(t, d.tree, name))
  {
    hide WellFormed;
    hide Sound;
    hide IsListing;
    hide IsSnapshotListing;
    hide Restored;
    hide Run;
    if HasOtherOutside(t) {
      var p :| p in t && t[p].Other? && !Protected(p);
      RollbackStops(t, listing, RestoreAll(t, name, rels, junk), p);
    } else {
      RollbackCompletes(t, name, listing, rels, junk);
    }
  }

  lemma ClearedIsInside(t: Tree, u: Tree, name: string, listing: seq<Path>)
    requires IsListing(t, listing) && ClearedSoFar(t, u, listing, |listing|)
    ensures Inside(t, u, name)
  {
    assert listing[..|listing|] == listing;
  }

  lemma FinishRestored(t: Tree, v: Tree, name: string, rels: seq<Path>)
    requires Inside(t, v, name) && IsSnapshotListing(t, name, rels) && Sound(t, name)
    requires forall rel :: rel in rels ==> rel in v
    ensures Restored(t, v - {[PENDING]}, name)
  {
  }

  // ---------- An interrupted rollback ----------

  lemma {:induction false} EnsureAllOps(p: Path)
    ensures |EnsureAll(p)| == |p|
    ensures forall i :: 0 <= i < |p| ==> EnsureAll(p)[i] == EnsureDir(p[..i + 1])
  {
    if p != [] {
      var parent := p[..|p| - 1];
      EnsureAllOps(parent);
      forall i | 0 <= i < |p| ensures EnsureAll(p)[i] == EnsureDir(p[..i + 1]) {
        if i < |parent| {
          assert parent[..i + 1] == p[..i + 1];
        } else {
          assert p[..i + 1] == p;
        }
      }
    }
  }

  ghost predicate LeavesAlone(ops: seq<Op>, q: Path)
  {
    forall i :: 0 <= i < |ops| ==> !Touches(ops[i], q)
  }

  lemma EnsureLeaves(p: Path, q: Path)
    requires forall n :: 0 < n <= |p| ==> p[..n] != q
    ensures LeavesAlone(EnsureAll(p), q)
  {
    EnsureAllOps(p);
  }

  lemma CopyLeaves(dest: Path, junk: Content, c: Content, q: Path)
    requires dest != [] && forall n :: 0 < n <= |dest| ==> dest[..n] != q
    ensures LeavesAlone(CopyTo(dest, junk, c), q)
  {
    hide EnsureAll;
    var dir := dest[..|dest| - 1];
    forall n | 0 < n <= |dir| ensures dir[..n] != q {
      assert dir[..n] == dest[..n];
    }
    assert dest[..|dest|] == dest;
    EnsureLeaves(dir, q);
  }

  lemma RestoreOneLeaves(t: Tree, name: string, rel: Path, junk: Content, q: Path)
    requires WellFormed(t) && Sound(t, name) && Protected(q)
    ensures LeavesAlone(RestoreOne(t, name, rel, junk), q)
  {
    hide CopyTo;
    hide EnsureAll;
    hide WellFormed;
    if rel != [] && At(name, rel) in t && !t[At(name, rel)].Other? {
      forall n | 0 < n <= |rel| ensures rel[..n] != q {
        SnapshotDirs(t, name, rel, n);
        assert SoundAt(t, name, rel[..n]);
      }
      EnsureLeaves(rel, q);
      if t[At(name, rel)].File? {
        CopyLeaves(rel, junk, t[At(name, rel)].content, q);
      }
    }
  }

  lemma {:induction false} RestoreAllLeaves(t: Tree, name: string, rels: seq<Path>, junk: Path -> Content, q: Path)
    requires WellFormed(t) && Sound(t, name) && Protected(q)
    ensures LeavesAlone(RestoreAll(t, name, rels, junk), q)
  {
    if rels != [] {
      hide RestoreOne;
      hide WellFormed;
      hide Sound;
      RestoreAllLeaves(t, name, rels[..|rels| - 1], junk, q);
      RestoreOneLeaves(t, name, rels[|rels| - 1], junk(rels[|rels| - 1]), q);
    }
  }

  // Short of its last operation, a rollback changes nothing that is protected.
  lemma RollbackLeaves(t: Tree, name: string, listing: seq<Path>, rels: seq<Path>, junk: Path -> Content, cut: nat,
                       q: Path)
    requires WellFormed(t) && Sound(t, name) && Protected(q)
    requires cut < |RollbackScript(t, name, listing, rels, junk)|
    ensures SameAt(t, Run(Disk(t, true), RollbackScript(t, name, listing, rels, junk)[..cut]).tree, q)
  {
    hide Run;
    hide SameAt;
    var script := RollbackScript(t, name, listing, rels, junk);
    ClearsTouch(listing, q);
    RestoreAllLeaves(t, name, rels, junk, q);
    assert LeavesAlone(script[..cut], q);
    RunFrame(Disk(t, true), script[..cut], q);
  }

  // ---------- The guard's states ----------

  predicate ReadySet(t: Tree) { [READY] in t && t[[READY]].File? }

  // The snapshot has the original files, apart from leftover markers.
  ghost predicate HoldsOrigin(t: Tree, name: string, origin: Original)
  {
    forall rel :: rel != [] && !IsTemp(rel) ==> OriginAt(t, name, origin, rel)
  }

  ghost predicate OriginAt(t: Tree, name: string, origin: Original, rel: Path)
  {
    if rel in origin then At(name, rel) in t && t[At(name, rel)].File? && origin[rel] == Some(t[At(name, rel)].content)
    else At(name, rel) in t ==> !t[At(name, rel)].File?
  }

  ghost predicate GuardedBy(t: Tree, name: string, origin: Original)
  {
    PendingNames(t, name) && Verified(t, name) && Sound(t, name) && HoldsOrigin(t, name, origin)
  }

  // The marker names a complete, verified backup of the original files.
  ghost predicate Guarded(t: Tree, origin: Original)
  {
    exists name :: GuardedBy(t, name, origin)
  }

  // The saved files are the original ones, apart from leftover markers.
  ghost predicate Unchanged(t: Tree, origin: Original)
  {
    forall p :: p != [] && !IsTemp(p) ==> UnchangedAt(t, origin, p)
  }

  ghost predicate UnchangedAt(t: Tree, origin: Original, p: Path)
  {
    if p in origin then IsSaved(t, p) && Captured(t, p) == origin[p] else !IsSaved(t, p)
  }

  ghost predicate Inv(t: Tree, origin: Original)
  {
    && WellFormed(t)
    && ([PENDING] in t ==> Guarded(t, origin))
    && ([PENDING] in t || ReadySet(t) || Unchanged(t, origin))
  }

  // Being guarded is a matter of protected paths only.
  lemma GuardedFrame(t: Tree, u: Tree, name: string, origin: Original)
    requires GuardedBy(t, name, origin) && forall q :: Protected(q) ==> SameAt(t, u, q)
    ensures GuardedBy(u, name, origin)
  {
    hide SavedName;
    hide IsTemp;
    assert SameAt(t, u, [PENDING]) && SameAt(t, u, ManifestPath(name));
    forall rel ensures SameAt(t, u, At(name, rel)) {
      assert Protected(At(name, rel));
    }
    hide Protected;
    hide SameAt;
    assert Sound(u, name) by {
      forall rel | rel != [] && At(name, rel) in u ensures SoundAt(u, name, rel) {
        assert SameAt(t, u, At(name, rel));
        assert SoundAt(t, name, rel);
      }
    }
  }

  // ---------- Prepare ----------

  function BackupRoot(name: string): Path { [BACKUP_DIR, name] }

  function MakeBackup(name: string): seq<Op>
  {
    [EnsureDir([BACKUP_DIR]), MakeDir(BackupRoot(name)), MakeDir(SnapshotRoot(name))]
  }

  function SaveOne(t: Tree, name: string, p: Path, junk: Content): seq<Op>
  {
    if !IsSaved(t, p) then [Raise]
    else if Captured(t, p).None? then CopyTo(At(name, p), junk, junk) + [Raise]
    else CopyTo(At(name, p), junk, Captured(t, p).value)
  }

  function SaveAll(t: Tree, name: string, sources: seq<Path>, junk: Path -> Content): seq<Op>
  {
    if sources == [] then []
    else SaveAll(t, name, sources[..|sources| - 1], junk) +
         SaveOne(t, name, sources[|sources| - 1], junk(sources[|sources| - 1]))
  }

  function WriteManifest(t: Tree, name: string, unique: string, junk: Content): seq<Op>
  {
    AtomicJson(ManifestPath(name), BackupRoot(name) + [TempOf("manifest.json", unique)], junk, Manifest(SavedFiles(t)))
  }

  function WriteMarker(marker: string, name: string, unique: string, junk: Content): seq<Op>
  {
    AtomicJson([marker], [TempOf(marker, unique)], junk, Marker(name))
  }

  // A link or device anywhere, backups included, is an error of the walk that
  // lists the sources.
  function PrepareScript(t: Tree, name: string, unique: string, sources: seq<Path>, junk: Path -> Content): seq<Op>
  {
    if HasOther(t) then MakeBackup(name) + [Raise]
    else MakeBackup(name) + SaveAll(t, name, sources, junk) + WriteManifest(t, name, unique, junk(ManifestPath(name)))
         + [Check(name)] + WriteMarker(PENDING, name, unique, junk([PENDING]))
  }

  ghost predicate IsSourceListing(t: Tree, sources: seq<Path>)
  {
    forall p :: p in sources <==> IsSaved(t, p)
  }

  lemma NothingBelow(t: Tree, p: Path, q: Path)
    requires WellFormed(t) && p != [] && p !in t && q in t
    ensures !(|q| > |p| && q[..|p|] == p)
  {
    if |q| > |p| {
      AncestorsAreDirs(t, q, |p|);
    }
  }

  // While files are saved, the active tree is as it was and the snapshot has
  // only directories and saved files of it.
  ghost predicate Mirror(t: Tree, u: Tree, name: string)
  {
    && DirsTo(u, SnapshotRoot(name))
    && (forall x :: BackupRoot(name) + [x] in u ==> x == "snapshot")
    && (forall q :: q == [] || q[0] != BACKUP_DIR ==> SameAt(t, u, q))
    && (forall rel :: rel != [] && At(name, rel) in u ==> MirrorAt(t, u, name, rel))
  }

  ghost predicate MirrorAt(t: Tree, u: Tree, name: string, rel: Path)
    requires At(name, rel) in u
  {
    && rel in t && rel != [] && rel[0] != BACKUP_DIR
    && (if u[At(name, rel)].Dir? then t[rel].Dir?
        else IsSaved(t, rel) && Captured(t, rel).Some? && u[At(name, rel)] == File(Captured(t, rel).value))
  }

  lemma RunThree(d: Disk, a: Op, b: Op, c: Op)
    ensures Run(d, [a, b, c]) == Apply(Apply(Apply(d, a), b), c)
  {
    RunOne(d, a);
    RunOne(Apply(d, a), b);
    RunOne(Apply(Apply(d, a), b), c);
    RunConcat(d, [a], [b]);
    RunConcat(d, [a] + [b], [c]);
    assert [a, b, c] == [a] + [b] + [c];
  }

  lemma MakeBackupRuns(t: Tree, name: string)
    requires WellFormed(t)
    ensures var d := Run(Disk(t, true), MakeBackup(name));
      && (d.ok <==> CanBeDir(t, [BACKUP_DIR]) && BackupRoot(name) !in t)
      && (d.ok ==> d.tree == t[[BACKUP_DIR] := Dir][BackupRoot(name) := Dir][SnapshotRoot(name) := Dir])
  {
    hide Run;
    RunThree(Disk(t, true), EnsureDir([BACKUP_DIR]), MakeDir(BackupRoot(name)), MakeDir(SnapshotRoot(name)));
    if CanBeDir(t, [BACKUP_DIR]) && BackupRoot(name) !in t {
      var u := t[[BACKUP_DIR] := Dir];
      assert BackupRoot(name)[..1] == [BACKUP_DIR] && SnapshotRoot(name)[..2] == BackupRoot(name);
      if SnapshotRoot(name) in t {
        NothingBelow(t, BackupRoot(name), SnapshotRoot(name));
      }
      assert Apply(Disk(t, true), EnsureDir([BACKUP_DIR])) == Disk(u, true) by {
        if [BACKUP_DIR] in t {
          assert u == t;
        }
      }
    }
  }

  lemma MakeBackupMirrors(t: Tree, name: string)
    requires WellFormed(t) && BackupRoot(name) !in t
    ensures Mirror(t, t[[BACKUP_DIR] := Dir][BackupRoot(name) := Dir][SnapshotRoot(name) := Dir], name)
  {
    var u := t[[BACKUP_DIR] := Dir][BackupRoot(name) := Dir][SnapshotRoot(name) := Dir];
    var root := SnapshotRoot(name);
    assert root[..1] == [BACKUP_DIR] && root[..2] == BackupRoot(name) && root[..3] == root;
    forall x | BackupRoot(name) + [x] in u ensures x == "snapshot" {
      var q := BackupRoot(name) + [x];
      assert q[..2] == BackupRoot(name) && q[2] == x;
      if q in t {
        NothingBelow(t, BackupRoot(name), q);
      }
    }
    forall rel | rel != [] ensures At(name, rel) !in u {
      assert At(name, rel)[..2] == BackupRoot(name);
      if At(name, rel) in t {
        NothingBelow(t, BackupRoot(name), At(name, rel));
      }
    }
  }

  lemma AtPrefix(name: string, rel: Path, n: nat)
    requires 0 < n <= 3 + |rel|
    ensures At(name, rel)[..n] == if n <= 3 then SnapshotRoot(name)[..n] else At(name, rel[..n - 3])
  {
  }

  lemma SaveDirs(t: Tree, u: Tree, name: string, p: Path)
    requires WellFormed(t) && Mirror(t, u, name) && IsSaved(t, p)
    ensures var dir := At(name, p)[..|At(name, p)| - 1]; var d := Run(Disk(u, true), EnsureAll(dir));
      d.ok && Mirror(t, d.tree, name) && DirsTo(d.tree, dir) && (forall q :: q in u ==> SameAt(u, d.tree, q))
  {
    hide SavedName;
    var dir := At(name, p)[..|At(name, p)| - 1];
    var parent := p[..|p| - 1];
    assert dir == At(name, parent);
    forall n | 0 < n <= |dir| ensures CanBeDir(u, dir[..n]) {
      AtPrefix(name, parent, n);
      if n > 3 {
        var rel := parent[..n - 3];
        assert rel == p[..n - 3];
        AncestorsAreDirs(t, p, n - 3);
        if At(name, rel) in u {
          assert MirrorAt(t, u, name, rel);
        }
      }
    }
    EnsureAllRuns(u, dir);
    SavedDirsMirror(t, u, Run(Disk(u, true), EnsureAll(dir)).tree, name, p);
  }

  lemma SavedDirsMirror(t: Tree, u: Tree, v: Tree, name: string, p: Path)
    requires WellFormed(t) && Mirror(t, u, name) && IsSaved(t, p) && SavedName(p)
    requires DirsTo(v, At(name, p[..|p| - 1])) && OnlyAdds(u, v, At(name, p[..|p| - 1]))
    ensures Mirror(t, v, name) && forall q :: q in u ==> SameAt(u, v, q)
  {
    var parent := p[..|p| - 1];
    var dir := At(name, parent);
    forall q | q in u ensures SameAt(u, v, q) {
      assert SameAt(u, v, q) || AddedDir(u, v, dir, q);
    }
    forall q ensures AddedDir(u, v, dir, q) ==> q[0] == BACKUP_DIR {
      if AddedDir(u, v, dir, q) {
        assert dir[..|q|][0] == BACKUP_DIR;
      }
    }
    forall q | q == [] || q[0] != BACKUP_DIR ensures SameAt(t, v, q) {
      assert SameAt(u, v, q) || AddedDir(u, v, dir, q);
      assert SameAt(t, u, q);
    }
    forall rel | rel != [] && At(name, rel) in v ensures MirrorAt(t, v, name, rel) {
      var q := At(name, rel);
      assert SameAt(u, v, q) || AddedDir(u, v, dir, q);
      if AddedDir(u, v, dir, q) {
        AtPrefix(name, parent, |q|);
        assert At(name, parent[..|rel|]) == At(name, rel);
        assert q[3..] == rel && At(name, parent[..|rel|])[3..] == parent[..|rel|];
        assert rel == p[..|rel|];
        AncestorsAreDirs(t, p, |rel|);
      } else {
        assert MirrorAt(t, u, name, rel);
      }
    }
    forall x | BackupRoot(name) + [x] in v ensures x == "snapshot" {
      var q := BackupRoot(name) + [x];
      assert q[2] == x;
      assert SameAt(u, v, q) || AddedDir(u, v, dir, q);
      if AddedDir(u, v, dir, q) {
        AtPrefix(name, parent, 3);
      }
    }
    forall n | 0 < n <= 3 ensures SnapshotRoot(name)[..n] in v && v[SnapshotRoot(name)[..n]].Dir? {
      assert SameAt(u, v, SnapshotRoot(name)[..n]);
    }
  }

  lemma SaveOneRuns(t: Tree, u: Tree, name: string, p: Path, junk: Content)
    requires WellFormed(t) && Mirror(t, u, name) && IsSaved(t, p) && Captured(t, p).Some?
    ensures var d := Run(Disk(u, true), SaveOne(t, name, p, junk));
      d.ok && Mirror(t, d.tree, name) && At(name, p) in d.tree
      && forall q :: q in u && q != At(name, p) ==> SameAt(u, d.tree, q)
  {
    var dest := At(name, p);
    SaveDirs(t, u, name, p);
    var v := Run(Disk(u, true), EnsureAll(dest[..|dest| - 1])).tree;
    if dest in v {
      assert MirrorAt(t, v, name, p);
    }
    CopyRuns(u, dest, junk, Captured(t, p).value, v);
    MirrorWithFile(t, v, name, p);
  }

  lemma MirrorWithFile(t: Tree, v: Tree, name: string, p: Path)
    requires Mirror(t, v, name) && IsSaved(t, p) && Captured(t, p).Some?
    ensures Mirror(t, v[At(name, p) := File(Captured(t, p).value)], name)
  {
    hide Captured;
    var w := v[At(name, p) := File(Captured(t, p).value)];
    forall n | 0 < n <= 3 ensures SnapshotRoot(name)[..n] in w && w[SnapshotRoot(name)[..n]].Dir? {
      assert |SnapshotRoot(name)[..n]| < |At(name, p)|;
      assert SnapshotRoot(name)[..n] in v;
    }
    forall x | BackupRoot(name) + [x] in w ensures x == "snapshot" {
      assert |BackupRoot(name) + [x]| < |At(name, p)|;
    }
    forall q | q == [] || q[0] != BACKUP_DIR ensures SameAt(t, w, q) {
      assert SameAt(t, v, q);
    }
    forall rel | rel != [] && At(name, rel) in w ensures MirrorAt(t, w, name, rel) {
      assert rel == At(name, rel)[3..];
      assert p == At(name, p)[3..];
      if rel != p {
        assert MirrorAt(t, v, name, rel);
      }
    }
  }

  lemma {:induction false} SaveAllRuns(t: Tree, u: Tree, name: string, sources: seq<Path>, junk: Path -> Content)
    requires WellFormed(t) && Mirror(t, u, name)
    requires forall p :: p in sources ==> IsSaved(t, p) && Captured(t, p).Some?
    ensures var d := Run(Disk(u, true), SaveAll(t, name, sources, junk));
      d.ok && Mirror(t, d.tree, name) && (forall p :: p in sources ==> At(name, p) in d.tree)
  {
    hide Run;
    hide Apply;
    hide WellFormed;
    hide Mirror;
    hide SaveOne;
    hide IsSaved;
    RunNothing(Disk(u, true));
    if sources != [] {
      var before, p := sources[..|sources| - 1], sources[|sources| - 1];
      assert p in sources;
      forall x | x in before ensures IsSaved(t, x) && Captured(t, x).Some? {
        assert x in sources;
      }
      SaveAllRuns(t, u, name, before, junk);
      var d := Run(Disk(u, true), SaveAll(t, name, before, junk));
      SaveOneRuns(t, d.tree, name, p, junk(p));
      RunConcat(Disk(u, true), SaveAll(t, name, before, junk), SaveOne(t, name, p, junk(p)));
      assert sources == before + [p];
    }
  }

  // A database that cannot be copied stops the saving.
  lemma SaveOneFails(t: Tree, d: Disk, name: string, p: Path, junk: Content)
    requires IsSaved(t, p) && Captured(t, p).None?
    ensures !Run(d, SaveOne(t, name, p, junk)).ok
  {
    hide Run;
    hide CopyTo;
    hide Captured;
    var copy := CopyTo(At(name, p), junk, junk);
    RunConcat(d, copy, [Raise]);
    RunOne(Run(d, copy), Raise);
  }

  lemma {:induction false} SaveAllStops(t: Tree, d: Disk, name: string, sources: seq<Path>, junk: Path -> Content,
                                        p: Path)
    requires p in sources && IsSaved(t, p) && Captured(t, p).None?
    ensures !Run(d, SaveAll(t, name, sources, junk)).ok
  {
    hide Run;
    hide SaveOne;
    hide Captured;
    var before, last := sources[..|sources| - 1], sources[|sources| - 1];
    RunConcat(d, SaveAll(t, name, before, junk), SaveOne(t, name, last, junk(last)));
    if last == p {
      SaveOneFails(t, Run(d, SaveAll(t, name, before, junk)), name, p, junk(p));
    } else {
      assert sources == before + [last];
      SaveAllStops(t, d, name, before, junk, p);
      RunAfterError(Run(d, SaveAll(t, name, before, junk)), SaveOne(t, name, last, junk(last)));
    }
  }

  // An atomic write that succeeds leaves the new content and no other trace.
  lemma AtomicJsonRuns(t: Tree, path: Path, temp: Path, junk: Content, c: Content)
    requires path != temp && path != [] && temp != [] && path[..|path| - 1] == temp[..|temp| - 1]
    ensures var d := Run(Disk(t, true), AtomicJson(path, temp, junk, c));
      && (d.ok <==> temp !in t && HasParent(t, temp) && (path in t ==> t[path].File?))
      && (d.ok ==> d.tree == t[path := File(c)])
  {
    hide Run;
    RunThree(Disk(t, true), Create(temp, junk), Put(temp, c), Rename(temp, path));
    if temp !in t && HasParent(t, temp) {
      var t1, t2 := t[temp := File(junk)], t[temp := File(c)];
      assert Apply(Disk(t, true), Create(temp, junk)) == Disk(t1, true);
      assert t1[temp := File(c)] == t2;
      assert Apply(Disk(t1, true), Put(temp, c)) == Disk(t2, true);
      assert HasParent(t2, path) by {
        if |path| > 1 {
          assert |temp| == |path|;
        }
      }
      assert (t2 - {temp})[path := File(c)] == t[path := File(c)];
    }
  }

  // ---------- A complete preparation ----------

  // After the sources are saved and the manifest written, the backup is
  // verified, can be put back, and holds the original files.
  lemma MirrorIsVerified(t: Tree, u: Tree, name: string, sources: seq<Path>)
    requires Mirror(t, u, name) && IsSourceListing(t, sources) && forall p :: p in sources ==> At(name, p) in u
    requires Capturable(t)
    ensures Verified(u[ManifestPath(name) := File(Manifest(SavedFiles(t)))], name)
  {
    hide Mirror;
    MirrorRoot(t, u, name);
    assert At(name, []) == SnapshotRoot(name);
    var w := u[ManifestPath(name) := File(Manifest(SavedFiles(t)))];
    forall rel ensures At(name, rel) != ManifestPath(name) {
      assert At(name, rel)[2] == "snapshot";
    }
    forall rel | rel in SavedFiles(t)
      ensures rel != [] && ".." !in rel && At(name, rel) in w && w[At(name, rel)] == File(SavedFiles(t)[rel])
      ensures IsDatabase(rel) ==> IsSoundDatabase(SavedFiles(t)[rel]) {
      assert rel in sources;
      MirrorEntry(t, u, name, rel);
    }
    forall rel | At(name, rel) in w && w[At(name, rel)].File? ensures rel in SavedFiles(t) {
      if rel != [] {
        MirrorEntry(t, u, name, rel);
      }
    }
  }

  lemma MirrorEntry(t: Tree, u: Tree, name: string, rel: Path)
    requires Mirror(t, u, name) && rel != [] && At(name, rel) in u
    ensures MirrorAt(t, u, name, rel)
  {
  }

  lemma MirrorRoot(t: Tree, u: Tree, name: string)
    requires Mirror(t, u, name)
    ensures SnapshotRoot(name) in u && u[SnapshotRoot(name)].Dir?
  {
    assert SnapshotRoot(name)[..3] == SnapshotRoot(name);
  }

  lemma MirrorIsSound(t: Tree, u: Tree, name: string, sources: seq<Path>, origin: Original)
    requires Mirror(t, u, name) && IsSourceListing(t, sources) && forall p :: p in sources ==> At(name, p) in u
    requires [PENDING] !in t && Unchanged(t, origin) && Capturable(t)
    ensures Sound(u, name) && HoldsOrigin(u, name, origin)
  {
    hide Mirror;
    hide SavedName;
    hide IsTemp;
    forall rel | rel != [] && At(name, rel) in u ensures SoundAt(u, name, rel) {
      MirrorEntry(t, u, name, rel);
    }
    forall rel | rel != [] && !IsTemp(rel)
      ensures OriginAt(u, name, origin, rel) {
      assert UnchangedAt(t, origin, rel);
      if rel in origin {
        assert rel in sources;
      }
      if At(name, rel) in u {
        MirrorEntry(t, u, name, rel);
      }
    }
  }

  // Nothing outside the backup directory but the marker is new.
  ghost predicate ActiveSame(t: Tree, u: Tree)
  {
    forall q :: q == [] || (q[0] != BACKUP_DIR && q != [PENDING]) ==> SameAt(t, u, q)
  }

  lemma ManifestRuns(t: Tree, u: Tree, name: string, unique: string, sources: seq<Path>, junk: Content)
    requires WellFormed(t) && Mirror(t, u, name) && IsSourceListing(t, sources)
    requires forall p :: p in sources ==> At(name, p) in u
    ensures Run(Disk(u, true), WriteManifest(t, name, unique, junk))
            == Disk(u[ManifestPath(name) := File(Manifest(SavedFiles(t)))], true)
  {
    var temp := BackupRoot(name) + [TempOf("manifest.json", unique)];
    assert ManifestPath(name) == BackupRoot(name) + ["manifest.json"];
    assert TempOf("manifest.json", unique)[0] == '.';
    assert temp[2] != "snapshot" && ManifestPath(name)[2] == "manifest.json";
    assert temp[..2] == BackupRoot(name) == ManifestPath(name)[..2] == SnapshotRoot(name)[..2];
    AtomicJsonRuns(u, ManifestPath(name), temp, junk, Manifest(SavedFiles(t)));
  }

  lemma MarkerRuns(t: Tree, w: Tree, name: string, unique: string, junk: Content, origin: Original)
    requires ActiveSame(t, w) && [PENDING] !in w && Verified(w, name) && Sound(w, name) && HoldsOrigin(w, name, origin)
    ensures var d := Run(Disk(w, true), [Check(name)] + WriteMarker(PENDING, name, unique, junk));
      && (d.ok <==> [TempOf(PENDING, unique)] !in t)
      && (d.ok ==> GuardedBy(d.tree, name, origin) && ActiveSame(t, d.tree))
  {
    hide Run;
    hide Verified;
    hide Sound;
    hide HoldsOrigin;
    hide GuardedBy;
    var temp := [TempOf(PENDING, unique)];
    TempIsTemp(PENDING, unique);
    RunOne(Disk(w, true), Check(name));
    RunConcat(Disk(w, true), [Check(name)], WriteMarker(PENDING, name, unique, junk));
    AtomicJsonRuns(w, [PENDING], temp, junk, Marker(name));
    assert SameAt(t, w, temp);
    MarkerGuards(w, name, origin);
    ActiveSameWithMarker(t, w, File(Marker(name)));
  }

  lemma ActiveSameWithMarker(t: Tree, w: Tree, e: Entry)
    requires ActiveSame(t, w)
    ensures ActiveSame(t, w[[PENDING] := e])
  {
    var u := w[[PENDING] := e];
    forall q: Path | q == [] || (q[0] != BACKUP_DIR && q != [PENDING]) ensures SameAt(t, u, q) {
      assert SameAt(t, w, q);
      if q == [] {
        assert |[PENDING]| == 1;
      }
      assert SameAt(w, u, q);
    }
  }

  lemma MarkerGuards(w: Tree, name: string, origin: Original)
    requires Verified(w, name) && Sound(w, name) && HoldsOrigin(w, name, origin)
    ensures GuardedBy(w[[PENDING] := File(Marker(name))], name, origin)
  {
    hide SavedName;
    hide IsTemp;
    var x := w[[PENDING] := File(Marker(name))];
    forall rel ensures SameAt(w, x, At(name, rel)) {
    }
    assert Sound(x, name) by {
      forall rel | rel != [] && At(name, rel) in x ensures SoundAt(x, name, rel) {
        assert SameAt(w, x, At(name, rel));
        assert SoundAt(w, name, rel);
      }
    }
  }

  lemma ManifestKeeps(t: Tree, u: Tree, name: string, origin: Original, c: Content)
    requires Mirror(t, u, name) && [PENDING] !in t && Sound(u, name) && HoldsOrigin(u, name, origin)
    ensures var w := u[ManifestPath(name) := File(c)];
      ActiveSame(t, w) && [PENDING] !in w && Sound(w, name) && HoldsOrigin(w, name, origin)
  {
    hide SavedName;
    hide IsTemp;
    var w := u[ManifestPath(name) := File(c)];
    assert SameAt(t, u, [PENDING]);
    forall rel ensures At(name, rel) != ManifestPath(name) {
      assert At(name, rel)[2] == "snapshot";
    }
    forall rel ensures SameAt(u, w, At(name, rel)) {
    }
    assert Sound(w, name) by {
      forall rel | rel != [] && At(name, rel) in w ensures SoundAt(w, name, rel) {
        assert SameAt(u, w, At(name, rel));
        assert SoundAt(u, name, rel);
      }
    }
    assert HoldsOrigin(w, name, origin) by {
      forall rel | rel != [] && !IsTemp(rel) ensures OriginAt(w, name, origin, rel) {
        assert OriginAt(u, name, origin, rel);
        assert SameAt(u, w, At(name, rel));
      }
    }
    forall q | q == [] || (q[0] != BACKUP_DIR && q != [PENDING]) ensures SameAt(t, w, q) {
      assert SameAt(t, u, q);
    }
  }

  // An uninterrupted preparation completes exactly when there is no link or
  // device in the tree, its databases are sound and its names are free; then
  // the marker names a verified backup of the original files, the databases
  // with the commits of their logs, and the files are still in place.
  lemma PrepareCompletes(t: Tree, name: string, unique: string, sources: seq<Path>, junk: Path -> Content,
                         origin: Original)
    requires WellFormed(t) && [PENDING] !in t && IsSourceListing(t, sources) && Unchanged(t, origin)
    ensures var d := Run(Disk(t, true), PrepareScript(t, name, unique, sources, junk));
      && (d.ok <==> !HasOther(t) && Capturable(t) && CanBeDir(t, [BACKUP_DIR]) && BackupRoot(name) !in t
                    && [TempOf(PENDING, unique)] !in t)
      && (d.ok ==> GuardedBy(d.tree, name, origin) && ActiveSame(t, d.tree))
  {
    hide Run;
    hide Apply;
    hide WellFormed;
    hide Mirror;
    hide Verified;
    hide Sound;
    hide HoldsOrigin;
    hide GuardedBy;
    hide ActiveSame;
    hide Unchanged;
    hide IsSaved;
    var d0, make := Disk(t, true), MakeBackup(name);
    MakeBackupRuns(t, name);
    if HasOther(t) {
      RunConcat(d0, make, [Raise]);
      RaiseFails(Run(d0, make));
    } else {
      var saves, manifest := SaveAll(t, name, sources, junk), WriteManifest(t, name, unique, junk(ManifestPath(name)));
      var marker := WriteMarker(PENDING, name, unique, junk([PENDING]));
      assert PrepareScript(t, name, unique, sources, junk) == make + (saves + (manifest + ([Check(name)] + marker)));
      RunConcat(d0, make, saves + (manifest + ([Check(name)] + marker)));
      if Run(d0, make).ok {
        var u := Run(d0, make).tree;
        MakeBackupMirrors(t, name);
        RunConcat(Disk(u, true), saves, manifest + ([Check(name)] + marker));
        if !Capturable(t) {
          SavesStop(t, Disk(u, true), name, sources, junk);
          RunAfterError(Run(Disk(u, true), saves), manifest + ([Check(name)] + marker));
          return;
        }
        SourcesCapturable(t, sources);
        SaveAllRuns(t, u, name, sources, junk);
        var v := Run(Disk(u, true), saves).tree;
        ManifestRuns(t, v, name, unique, sources, junk(ManifestPath(name)));
        var w := v[ManifestPath(name) := File(Manifest(SavedFiles(t)))];
        RunConcat(Disk(v, true), manifest, [Check(name)] + marker);
        MirrorIsVerified(t, v, name, sources);
        MirrorIsSound(t, v, name, sources, origin);
        ManifestKeeps(t, v, name, origin, Manifest(SavedFiles(t)));
        MarkerRuns(t, w, name, unique, junk([PENDING]), origin);
      } else {
        RunAfterError(Run(d0, make), saves + (manifest + ([Check(name)] + marker)));
      }
    }
  }

  lemma SavesStop(t: Tree, d: Disk, name: string, sources: seq<Path>, junk: Path -> Content)
    requires IsSourceListing(t, sources) && !Capturable(t)
    ensures !Run(d, SaveAll(t, name, sources, junk)).ok
  {
    hide Run;
    hide SaveAll;
    hide IsSaved;
    hide Captured;
    var p :| p in t && IsSaved(t, p) && Captured(t, p).None?;
    SaveAllStops(t, d, name, sources, junk, p);
  }

  lemma SourcesCapturable(t: Tree, sources: seq<Path>)
    requires IsSourceListing(t, sources) && Capturable(t)
    ensures forall p :: p in sources ==> IsSaved(t, p) && Captured(t, p).Some?
  {
    hide Captured;
    hide SavedName;
  }

  lemma RaiseFails(d: Disk)
    ensures !Run(d, [Raise]).ok
  {
    RunOne(d, Raise);
  }

  // ---------- An interrupted preparation ----------

  lemma SaveOneLeaves(t: Tree, name: string, p: Path, junk: Content, q: Path)
    requires q == [] || q[0] != BACKUP_DIR
    ensures LeavesAlone(SaveOne(t, name, p, junk), q)
  {
    hide CopyTo;
    hide Captured;
    hide IsSaved;
    var dest := At(name, p);
    forall n | 0 < n <= |dest| ensures dest[..n] != q {
      assert dest[..n][0] == BACKUP_DIR;
    }
    CopyLeaves(dest, junk, junk, q);
    if IsSaved(t, p) && Captured(t, p).Some? {
      CopyLeaves(dest, junk, Captured(t, p).value, q);
    }
  }

  lemma {:induction false} SaveAllLeaves(t: Tree, name: string, sources: seq<Path>, junk: Path -> Content, q: Path)
    requires q == [] || q[0] != BACKUP_DIR
    ensures LeavesAlone(SaveAll(t, name, sources, junk), q)
  {
    if sources != [] {
      hide SaveOne;
      hide LeavesAlone;
      var before, p := sources[..|sources| - 1], sources[|sources| - 1];
      SaveAllLeaves(t, name, before, junk, q);
      SaveOneLeaves(t, name, p, junk(p), q);
      ConcatLeaves(SaveAll(t, name, before, junk), SaveOne(t, name, p, junk(p)), q);
    } else {
      assert SaveAll(t, name, sources, junk) == [];
    }
  }

  lemma ConcatLeaves(a: seq<Op>, b: seq<Op>, q: Path)
    requires LeavesAlone(a, q) && LeavesAlone(b, q)
    ensures LeavesAlone(a + b, q)
  {
  }

  // Until the marker is in place, nothing outside the backup directory
  // changes except the file the marker is written to first.
  lemma PrepareLeaves(t: Tree, name: string, unique: string, sources: seq<Path>, junk: Path -> Content, cut: nat,
                      q: Path)
    requires q == [] || q[0] != BACKUP_DIR
    requires q != [TempOf(PENDING, unique)]
    requires cut < |PrepareScript(t, name, unique, sources, junk)|
    ensures SameAt(t, Run(Disk(t, true), PrepareScript(t, name, unique, sources, junk)[..cut]).tree, q)
  {
    hide Run;
    hide SameAt;
    hide SaveAll;
    var script := PrepareScript(t, name, unique, sources, junk);
    if !HasOther(t) {
      SaveAllLeaves(t, name, sources, junk, q);
      ConcatLeaves(MakeBackup(name), SaveAll(t, name, sources, junk), q);
      ConcatLeaves(MakeBackup(name) + SaveAll(t, name, sources, junk),
                   WriteManifest(t, name, unique, junk(ManifestPath(name))), q);
    }
    assert LeavesAlone(script[..|script| - 1], q);
    assert script[..cut] == script[..|script| - 1][..cut];
    RunFrame(Disk(t, true), script[..cut], q);
  }

  lemma FailedChangesNothing(d: Disk, ops: seq<Op>)
    requires ops != [] && !Run(d, ops).ok
    ensures Run(d, ops).tree == Run(d, ops[..|ops| - 1]).tree
  {
  }

  // ---------- Commit ----------

  ghost function CommitScript(t: Tree, name: string, unique: string, junk: Content): seq<Op>
  {
    if [PENDING] !in t then []
    else if PendingNames(t, name) && Verified(t, name)
    then WriteMarker(READY, name, unique, junk) + [Unlink([PENDING])]
    else [Raise]
  }

  // Wherever a commit is interrupted, the marker and its backup are still in
  // place, or the marker is gone and the schema is marked ready.
  lemma CommitLeaves(t: Tree, name: string, unique: string, junk: Content, cut: nat)
    requires [PENDING] in t && cut <= |CommitScript(t, name, unique, junk)|
    ensures var u := Run(Disk(t, true), CommitScript(t, name, unique, junk)[..cut]).tree;
      (ReadySet(u) && [PENDING] !in u) || (forall q :: Protected(q) ==> SameAt(t, u, q))
  {
    hide Run;
    hide Protected;
    var script := CommitScript(t, name, unique, junk);
    if PendingNames(t, name) && Verified(t, name) {
      TempIsTemp(READY, unique);
      var write := WriteMarker(READY, name, unique, junk);
      if cut <= 3 {
        MarkerWriteLeaves(t, name, unique, junk, cut);
        assert script[..cut] == write[..cut];
      } else {
        assert script[..cut] == write + [Unlink([PENDING])];
        RunConcat(Disk(t, true), write, [Unlink([PENDING])]);
        assert write[..3] == write;
        AtomicJsonRuns(t, [READY], [TempOf(READY, unique)], junk, Marker(name));
        var d := Run(Disk(t, true), write);
        MarkerIsProtected();
        MarkerWriteLeaves(t, name, unique, junk, 3);
        if d.ok {
          assert SameAt(t, d.tree, [PENDING]);
          RunOne(d, Unlink([PENDING]));
        } else {
          RunAfterError(d, [Unlink([PENDING])]);
        }
      }
    } else {
      forall q | Protected(q) ensures SameAt(t, Run(Disk(t, true), script[..cut]).tree, q) {
        RunFrame(Disk(t, true), script[..cut], q);
      }
    }
  }

  lemma MarkerIsProtected()
    ensures Protected([PENDING])
  {
  }

  lemma MarkerWriteLeaves(t: Tree, name: string, unique: string, junk: Content, cut: nat)
    requires cut <= 3
    ensures var u := Run(Disk(t, true), WriteMarker(READY, name, unique, junk)[..cut]).tree;
      forall q :: Protected(q) ==> SameAt(t, u, q)
  {
    hide Run;
    hide SameAt;
    TempIsTemp(READY, unique);
    var write := WriteMarker(READY, name, unique, junk);
    forall q | Protected(q) ensures SameAt(t, Run(Disk(t, true), write[..cut]).tree, q) {
      RunFrame(Disk(t, true), write[..cut], q);
    }
  }

  // ---------- All runs ----------

  // `cut` is the operation at which the machine stops or an error is raised; a
  // failed preparation may have removed part of its backup (`swept`). A
  // preparation that finds a marker is a rollback followed by a preparation.
  datatype Event =
    | Rollback(name: string, listing: seq<Path>, rels: seq<Path>, junk: Path -> Content, cut: nat)
    | Prepare(name: string, unique: string, sources: seq<Path>, junk: Path -> Content, cut: nat, swept: set<Path>)
    | Commit(name: string, unique: string, partial: Content, cut: nat)
    | Migrate(tree: Tree)

  function UpTo(ops: seq<Op>, cut: nat): seq<Op> { if cut < |ops| then ops[..cut] else ops }

  function Swept(t: Tree, name: string, swept: set<Path>): Tree
  {
    map q | q in t && !(q in swept && q != [] && q[0] == BACKUP_DIR && BackupRoot(name) <= q) :: t[q]
  }

  // Services run only after a preparation, and leave the guard's files alone.
  ghost predicate MayMigrate(t: Tree, u: Tree)
  {
    ([PENDING] in t || ReadySet(t)) && WellFormed(u) && forall q :: Protected(q) || q == [READY] ==> SameAt(t, u, q)
  }

  ghost function Next(t: Tree, event: Event): Tree
  {
    match event
    case Rollback(name, listing, rels, junk, cut) =>
      if IsListing(t, listing) && IsSnapshotListing(t, name, rels)
      then Run(Disk(t, true), UpTo(RollbackScript(t, name, listing, rels, junk), cut)).tree else t
    case Prepare(name, unique, sources, junk, cut, swept) =>
      if ReadySet(t) || [PENDING] in t || !IsSourceListing(t, sources) then t
      else
        var script := PrepareScript(t, name, unique, sources, junk);
        var d := Run(Disk(t, true), UpTo(script, cut));
        if d.ok && cut >= |script| then d.tree
        else
          var u := Swept(d.tree, name, swept);
          if Run(Disk(t, true), UpTo(MakeBackup(name), cut)).ok && WellFormed(u) then u else d.tree
    case Commit(name, unique, partial, cut) =>
      Run(Disk(t, true), UpTo(CommitScript(t, name, unique, partial), cut)).tree
    case Migrate(u) => if MayMigrate(t, u) then u else t
  }

  ghost function RunEvents(t: Tree, events: seq<Event>): Tree
  {
    if events == [] then t else Next(RunEvents(t, events[..|events| - 1]), events[|events| - 1])
  }

  lemma RestoredIsUnchanged(t: Tree, u: Tree, name: string, origin: Original)
    requires Restored(t, u, name) && Verified(t, name) && Sound(t, name) && HoldsOrigin(t, name, origin)
    ensures Unchanged(u, origin) && [PENDING] !in u
  {
    hide IsTemp;
    hide SavedName;
    hide IsDatabase;
    hide HasLog;
    hide Captured;
    hide Protected;
    MarkerIsProtected();
    forall p | p != [] && !IsTemp(p) ensures UnchangedAt(u, origin, p) {
      assert OriginAt(t, name, origin, p);
      RestoredSavedFile(t, u, name, p);
      if p in origin {
        CapturedWithoutLog(t, u, name, p);
      }
    }
  }

  // What a rollback restores are the snapshot's files, without a log ...
  lemma RestoredSavedFile(t: Tree, u: Tree, name: string, p: Path)
    requires Restored(t, u, name) && Sound(t, name) && p != []
    ensures IsSaved(u, p) <==> At(name, p) in t && t[At(name, p)].File?
    ensures IsSaved(u, p) ==> u[p] == t[At(name, p)] && !HasLog(u, p)
  {
    hide IsDatabase;
    hide SavedName;
    if At(name, p) in t {
      assert SoundAt(t, name, p);
    }
    SavedIsUnprotected(p);
    if IsSaved(u, p) {
      LogIsRuntime(p);
      if LogPath(p) in u {
        assert At(name, LogPath(p)) in t;
        assert SoundAt(t, name, LogPath(p));
      }
    }
  }

  lemma SavedIsUnprotected(p: Path)
    requires p != []
    ensures SavedName(p) ==> !Protected(p)
  {
  }

  // ... so a database holds the same commits as in the snapshot.
  lemma CapturedWithoutLog(t: Tree, u: Tree, name: string, p: Path)
    requires Verified(t, name) && p != [] && At(name, p) in t && t[At(name, p)].File?
    requires p in u && u[p] == t[At(name, p)] && !HasLog(u, p)
    ensures Captured(u, p) == Some(t[At(name, p)].content)
  {
    hide IsDatabase;
    hide HasLog;
    var files := t[ManifestPath(name)].content.files;
    assert p in files && t[At(name, p)] == File(files[p]);
  }

  lemma RollbackKeepsInv(t: Tree, e: Event, origin: Original)
    requires e.Rollback? && Inv(t, origin)
    ensures Inv(Next(t, e), origin)
  {
    var u := Next(t, e);
    var script := RollbackScript(t, e.name, e.listing, e.rels, e.junk);
    RunKeepsWellFormed(Disk(t, true), UpTo(script, e.cut));
    hide Run;
    hide Sound;
    hide HoldsOrigin;
    hide Verified;
    hide WellFormed;
    hide IsListing;
    hide IsSnapshotListing;
    hide Restored;
    hide Unchanged;
    if IsListing(t, e.listing) && IsSnapshotListing(t, e.name, e.rels) {
      if PendingNames(t, e.name) {
        var name :| GuardedBy(t, name, origin);
        assert name == e.name;
        if e.cut < |script| {
          StillGuarded(t, e, origin, e.cut);
        } else if Run(Disk(t, true), script).ok {
          RollbackRestores(t, name, e.listing, e.rels, e.junk);
          RestoredIsUnchanged(t, u, name, origin);
        } else {
          FailedChangesNothing(Disk(t, true), script);
          StillGuarded(t, e, origin, |script| - 1);
        }
      } else {
        RunNothing(Disk(t, true));
        RunOne(Disk(t, true), Raise);
      }
    }
  }

  lemma StillGuarded(t: Tree, e: Event, origin: Original, cut: nat)
    requires e.Rollback? && WellFormed(t) && GuardedBy(t, e.name, origin)
    requires cut < |RollbackScript(t, e.name, e.listing, e.rels, e.junk)|
    ensures var u := Run(Disk(t, true), RollbackScript(t, e.name, e.listing, e.rels, e.junk)[..cut]).tree;
      GuardedBy(u, e.name, origin) && [PENDING] in u
  {
    hide Run;
    hide WellFormed;
    hide Sound;
    hide HoldsOrigin;
    hide Verified;
    hide RollbackScript;
    hide SameAt;
    var u := Run(Disk(t, true), RollbackScript(t, e.name, e.listing, e.rels, e.junk)[..cut]).tree;
    forall q | Protected(q) ensures SameAt(t, u, q) {
      RollbackLeaves(t, e.name, e.listing, e.rels, e.junk, cut, q);
    }
    GuardedFrame(t, u, e.name, origin);
  }

  lemma UnchangedFrame(t: Tree, u: Tree, origin: Original)
    requires Unchanged(t, origin)
    requires forall q :: q != [] && q[0] != BACKUP_DIR && !IsTemp(q) ==> SameAt(t, u, q)
    ensures Unchanged(u, origin)
  {
    forall p | p != [] && !IsTemp(p) ensures UnchangedAt(u, origin, p) {
      assert UnchangedAt(t, origin, p);
      if SavedName(p) {
        assert SameAt(t, u, p);
        LogIsRuntime(p);
        assert SameAt(t, u, LogPath(p));
        CapturedFrame(t, u, p);
      }
    }
  }

  // What a backup stores of a file depends on the file and its log only.
  lemma CapturedFrame(t: Tree, u: Tree, p: Path)
    requires p != [] && SameAt(t, u, p) && SameAt(t, u, LogPath(p))
    ensures Captured(t, p) == Captured(u, p)
  {
    hide IsDatabase;
    hide LogPath;
  }

  lemma PrepareKeepsInv(t: Tree, e: Event, origin: Original)
    requires e.Prepare? && Inv(t, origin)
    ensures Inv(Next(t, e), origin)
  {
    if !ReadySet(t) && [PENDING] !in t && IsSourceListing(t, e.sources) {
      var script := PrepareScript(t, e.name, e.unique, e.sources, e.junk);
      var d := Run(Disk(t, true), UpTo(script, e.cut));
      RunKeepsWellFormed(Disk(t, true), UpTo(script, e.cut));
      hide Run;
      hide WellFormed;
      hide GuardedBy;
      hide Unchanged;
      hide IsSourceListing;
      hide PrepareScript;
      if d.ok && e.cut >= |script| {
        PrepareCompletes(t, e.name, e.unique, e.sources, e.junk, origin);
      } else {
        PrepareStops(t, e, origin);
      }
    }
  }

  lemma PrepareStops(t: Tree, e: Event, origin: Original)
    requires e.Prepare? && [PENDING] !in t && Unchanged(t, origin)
    requires var script := PrepareScript(t, e.name, e.unique, e.sources, e.junk);
      e.cut < |script| || !Run(Disk(t, true), script).ok
    ensures var u := Run(Disk(t, true), UpTo(PrepareScript(t, e.name, e.unique, e.sources, e.junk), e.cut)).tree;
      && Unchanged(u, origin) && [PENDING] !in u
      && Unchanged(Swept(u, e.name, e.swept), origin) && [PENDING] !in Swept(u, e.name, e.swept)
  {
    var script := PrepareScript(t, e.name, e.unique, e.sources, e.junk);
    assert |script| > 0;
    var cut := if e.cut < |script| then e.cut else |script| - 1;
    var u := Run(Disk(t, true), UpTo(script, e.cut)).tree;
    if e.cut >= |script| {
      FailedChangesNothing(Disk(t, true), script);
    }
    TempIsTemp(PENDING, e.unique);
    hide Run;
    hide Unchanged;
    hide IsTemp;
    hide PrepareScript;
    forall q | q != [] && q[0] != BACKUP_DIR && q != [TempOf(PENDING, e.unique)] ensures SameAt(t, u, q) {
      PrepareLeaves(t, e.name, e.unique, e.sources, e.junk, cut, q);
    }
    UnchangedFrame(t, u, origin);
    UnchangedFrame(u, Swept(u, e.name, e.swept), origin);
    assert SameAt(t, u, [PENDING]);
  }

  lemma CommitKeepsInv(t: Tree, e: Event, origin: Original)
    requires e.Commit? && Inv(t, origin)
    ensures Inv(Next(t, e), origin)
  {
    var script := CommitScript(t, e.name, e.unique, e.partial);
    var u := Next(t, e);
    RunKeepsWellFormed(Disk(t, true), UpTo(script, e.cut));
    RunNothing(Disk(t, true));
    hide Run;
    hide WellFormed;
    hide GuardedBy;
    hide Unchanged;
    if [PENDING] in t {
      var cut := if e.cut < |script| then e.cut else |script|;
      assert script[..|script|] == script;
      assert UpTo(script, e.cut) == script[..cut];
      CommitLeaves(t, e.name, e.unique, e.partial, cut);
      if !(ReadySet(u) && [PENDING] !in u) {
        assert forall q :: Protected(q) ==> SameAt(t, u, q);
        var name :| GuardedBy(t, name, origin);
        MarkerIsProtected();
        GuardedFrame(t, u, name, origin);
      }
    }
  }

  lemma MigrateKeepsInv(t: Tree, e: Event, origin: Original)
    requires e.Migrate? && Inv(t, origin)
    ensures Inv(Next(t, e), origin)
  {
    hide WellFormed;
    hide GuardedBy;
    hide Unchanged;
    if MayMigrate(t, e.tree) {
      assert SameAt(t, e.tree, [PENDING]) && SameAt(t, e.tree, [READY]);
      if [PENDING] in t {
        var name :| GuardedBy(t, name, origin);
        GuardedFrame(t, e.tree, name, origin);
      }
    }
  }

  lemma {:induction false} RunKeepsInv(t: Tree, events: seq<Event>, origin: Original)
    requires Inv(t, origin)
    ensures Inv(RunEvents(t, events), origin)
  {
    hide Inv;
    hide Next;
    if events != [] {
      RunKeepsInv(t, events[..|events| - 1], origin);
      var u, e := RunEvents(t, events[..|events| - 1]), events[|events| - 1];
      match e
      case Rollback(_, _, _, _, _) => RollbackKeepsInv(u, e, origin);
      case Prepare(_, _, _, _, _, _) => PrepareKeepsInv(u, e, origin);
      case Commit(_, _, _, _) => CommitKeepsInv(u, e, origin);
      case Migrate(_) => MigrateKeepsInv(u, e, origin);
    }
  }

  // ---------- Main results ----------

  function Origin(t: Tree): Original
  {
    map p | p in t && IsSaved(t, p) && !IsTemp(p) :: Captured(t, p)
  }

  lemma InvAtStart(t: Tree)
    requires WellFormed(t) && [PENDING] !in t
    ensures Inv(t, Origin(t))
  {
    hide IsTemp;
    hide SavedName;
  }

  // At every moment of every run, with operations cut short anywhere, the
  // schema is marked ready, or the marker names a complete verified backup of
  // the original files, or the original files are in place.
  lemma AlwaysRecoverable(t: Tree, events: seq<Event>)
    requires WellFormed(t) && [PENDING] !in t
    ensures var u := RunEvents(t, events); ReadySet(u) || Guarded(u, Origin(t)) || Unchanged(u, Origin(t))
  {
    InvAtStart(t);
    RunKeepsInv(t, events, Origin(t));
  }

  // After any such run, if the marker is there, one uninterrupted rollback
  // brings the original files back unless a link or device is in the way.
  lemma RollbackRecoversOrigin(t: Tree, events: seq<Event>, name: string, listing: seq<Path>, rels: seq<Path>,
                               junk: Path -> Content)
    requires WellFormed(t) && [PENDING] !in t
    requires PendingNames(RunEvents(t, events), name) && !HasOtherOutside(RunEvents(t, events))
    requires IsListing(RunEvents(t, events), listing) && IsSnapshotListing(RunEvents(t, events), name, rels)
    ensures var u := RunEvents(t, events); var d := Run(Disk(u, true), RollbackScript(u, name, listing, rels, junk));
      d.ok && Restored(u, d.tree, name) && Unchanged(d.tree, Origin(t))
  {
    InvAtStart(t);
    RunKeepsInv(t, events, Origin(t));
    var u := RunEvents(t, events);
    var other :| GuardedBy(u, other, Origin(t));
    assert other == name;
    RollbackRestores(u, name, listing, rels, junk);
    RestoredIsUnchanged(u, Run(Disk(u, true), RollbackScript(u, name, listing, rels, junk)).tree, name, Origin(t));
  }

  // Rollbacks interrupted anywhere, any number of times, with writes to the
  // active tree in between, do not change what the marker protects ...
  lemma {:induction false} InterruptionsProtect(t: Tree, events: seq<Event>, name: string, origin: Original,
                                                q: Path)
    requires Inv(t, origin) && PendingNames(t, name) && Protected(q)
    requires forall i :: 0 <= i < |events| ==> events[i].Rollback? || events[i].Migrate?
    requires [PENDING] in RunEvents(t, events)
    ensures SameAt(t, RunEvents(t, events), q)
  {
    if events != [] {
      var before, e := events[..|events| - 1], events[|events| - 1];
      var u := RunEvents(t, before);
      RunKeepsInv(t, before, origin);
      StepProtects(u, e, origin, q);
      InterruptionsProtect(t, before, name, origin, q);
    }
  }

  lemma StepProtects(u: Tree, e: Event, origin: Original, q: Path)
    requires Inv(u, origin) && (e.Rollback? || e.Migrate?) && Protected(q) && [PENDING] in Next(u, e)
    ensures [PENDING] in u && SameAt(u, Next(u, e), q)
  {
    hide Run;
    hide Sound;
    hide HoldsOrigin;
    hide Verified;
    hide WellFormed;
    hide IsListing;
    hide IsSnapshotListing;
    hide Unchanged;
    MarkerIsProtected();
    hide Protected;
    if e.Rollback? && IsListing(u, e.listing) && IsSnapshotListing(u, e.name, e.rels) {
      var script := RollbackScript(u, e.name, e.listing, e.rels, e.junk);
      if PendingNames(u, e.name) {
        var name :| GuardedBy(u, name, origin);
        assert name == e.name;
        RollbackRestores(u, name, e.listing, e.rels, e.junk);
        var cut := if e.cut < |script| then e.cut else |script| - 1;
        if e.cut >= |script| {
          FailedChangesNothing(Disk(u, true), script);
        }
        RollbackLeaves(u, name, e.listing, e.rels, e.junk, cut, q);
      } else {
        RunNothing(Disk(u, true));
        RunOne(Disk(u, true), Raise);
      }
    }
  }

  // ... so the one that completes leaves exactly the snapshot that was taken,
  // whatever the migration and the interrupted rollbacks left.
  lemma RestartedRollbackRestores(t: Tree, events: seq<Event>, name: string, origin: Original,
                                  listing: seq<Path>, rels: seq<Path>, junk: Path -> Content)
    requires Inv(t, origin) && PendingNames(t, name)
    requires forall i :: 0 <= i < |events| ==> events[i].Rollback? || events[i].Migrate?
    requires PendingNames(RunEvents(t, events), name) && !HasOtherOutside(RunEvents(t, events))
    requires IsListing(RunEvents(t, events), listing) && IsSnapshotListing(RunEvents(t, events), name, rels)
    ensures var u := RunEvents(t, events); var d := Run(Disk(u, true), RollbackScript(u, name, listing, rels, junk));
      d.ok && Restored(t, d.tree, name)
  {
    hide Run;
    hide SameAt;
    hide RollbackScript;
    var u := RunEvents(t, events);
    RunKeepsInv(t, events, origin);
    var other :| GuardedBy(u, other, origin);
    assert other == name;
    RollbackRestores(u, name, listing, rels, junk);
    forall q | Protected(q) ensures SameAt(t, u, q) {
      InterruptionsProtect(t, events, name, origin, q);
    }
    RestoredFrame(t, u, Run(Disk(u, true), RollbackScript(u, name, listing, rels, junk)).tree, name);
  }

  lemma RestoredFrame(t: Tree, u: Tree, v: Tree, name: string)
    requires Restored(u, v, name) && forall q :: Protected(q) ==> SameAt(t, u, q)
    ensures Restored(t, v, name)
  {
    forall q ensures if q == [PENDING] then q !in v
                     else if Protected(q) then SameAt(t, v, q)
                     else (q in v <==> q != [] && At(name, q) in t) && (q in v ==> v[q] == t[At(name, q)]) {
      assert Protected(At(name, q));
      assert SameAt(t, u, At(name, q));
    }
  }
}
