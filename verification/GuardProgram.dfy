// The migration guard's program (backup/preupgrade_guard.py): walks, loops and
// disk operations on a tree, on a machine that may stop at any of them.

module GuardProgram {
  import opened DiskTree
  import opened UpgradeGuard
  import opened Options

  // The configuration root, on a machine that stops after `budget` more disk
  // operations.
  class ConfigRoot {
    var tree: Tree
    var budget: nat

    constructor (t: Tree, operations: nat)
      ensures tree == t && budget == operations
    {
      tree, budget := t, operations;
    }

    // One disk operation. `ok` is false when it raised an error or the machine
    // stopped before it.
    method Do(op: Op) returns (ok: bool)
      requires !op.Check?
      modifies this
      ensures old(budget) == 0 ==> !ok && tree == old(tree) && budget == 0
      ensures old(budget) > 0 ==> budget == old(budget) - 1 && Disk(tree, ok) == Apply(Disk(old(tree), true), op)
    {
      ok := false;
      if budget == 0 {
        return;
      }
      budget := budget - 1;
      match op
      case Clear(p) =>
        if Protected(p) {
          ok := true;
        } else if p in tree && !tree[p].Other? {
          if tree[p].File? || IsEmptyDir(tree, p) {
            tree := tree - {p};
          }
          ok := true;
        }
      case EnsureDir(p) =>
        if p in tree {
          ok := tree[p].Dir?;
        } else {
          ok := Enter(p, Dir);
        }
      case MakeDir(p) =>
        if p !in tree {
          ok := Enter(p, Dir);
        }
      case Put(p, c) =>
        if p !in tree || tree[p].File? {
          ok := Enter(p, File(c));
        }
      case Create(p, c) =>
        if p !in tree {
          ok := Enter(p, File(c));
        }
      case Rename(a, p) =>
        if a in tree && tree[a].File? && a != p && (p !in tree || tree[p].File?) && p != [] && HasParent(tree, p) {
          tree := (tree - {a})[p := tree[a]];
          ok := true;
        }
      case Unlink(p) =>
        if p in tree && tree[p].File? {
          tree := tree - {p};
          ok := true;
        }
      case Raise => ok := false;
    }

    method Enter(p: Path, e: Entry) returns (ok: bool)
      modifies this`tree
      ensures Disk(tree, ok) == Written(old(tree), p, e)
    {
      ok := p != [] && HasParent(tree, p);
      if ok {
        tree := tree[p := e];
      }
    }

    // Operations one after the other until one fails; `cut` is how many ran.
    method DoAll(ops: seq<Op>) returns (ok: bool, ghost cut: nat)
      requires forall i :: 0 <= i < |ops| ==> !ops[i].Check?
      modifies this
      ensures cut <= |ops|
      ensures tree == Run(Disk(old(tree), true), ops[..cut]).tree
      ensures ok ==> cut == |ops| && Run(Disk(old(tree), true), ops).ok
      ensures !ok ==> budget == 0 || !Run(Disk(old(tree), true), ops[..cut]).ok
    {
      ok, cut := true, 0;
      var i := 0;
      while i < |ops| && ok
        invariant 0 <= i <= |ops|
        invariant cut <= i && (ok ==> cut == i)
        invariant tree == Run(Disk(old(tree), true), ops[..cut]).tree
        invariant ok ==> Run(Disk(old(tree), true), ops[..cut]).ok
        invariant !ok ==> budget == 0 || !Run(Disk(old(tree), true), ops[..cut]).ok
        decreases |ops| - i
      {
        ghost var stopped := budget == 0;
        ok := Do(ops[i]);
        if !stopped {
          assert ops[..cut + 1][..cut] == ops[..cut];
          cut := cut + 1;
        }
        i := i + 1;
      }
      assert ops[..|ops|] == ops;
    }

    // ---------- Reading the tree ----------

    method Deepest(s: set<Path>) returns (p: Path)
      requires s != {}
      ensures p in s && forall q :: q in s ==> |q| <= |p|
    {
      p :| p in s;
      var rest := s - {p};
      while rest != {}
        invariant p in s && rest <= s
        invariant forall q :: q in s && q !in rest ==> |q| <= |p|
        decreases |rest|
      {
        var q :| q in rest;
        rest := rest - {q};
        if |q| > |p| {
          p := q;
        }
      }
    }

    // Every path, deeper ones first.
    method Walk() returns (listing: seq<Path>)
      ensures IsListing(tree, listing)
    {
      listing := [];
      var rest := tree.Keys;
      while rest != {}
        invariant rest <= tree.Keys
        invariant forall p :: p in listing <==> p in tree && p !in rest
        invariant forall i, q :: 0 <= i < |listing| && q in rest ==> |listing[i]| >= |q|
        invariant forall i, j :: 0 <= i < j < |listing| ==> listing[i] != listing[j] && |listing[i]| >= |listing[j]|
        decreases |rest|
      {
        var p := Deepest(rest);
        listing := listing + [p];
        rest := rest - {p};
      }
    }

    method SnapshotEntries(name: string) returns (rels: seq<Path>)
      ensures IsSnapshotListing(tree, name, rels)
    {
      rels := [];
      var rest := tree.Keys;
      while rest != {}
        invariant rest <= tree.Keys
        invariant forall rel :: rel in rels <==> rel != [] && At(name, rel) in tree && At(name, rel) !in rest
        decreases |rest|
      {
        var q :| q in rest;
        rest := rest - {q};
        if |q| > 3 && q[..3] == SnapshotRoot(name) {
          assert q == At(name, q[3..]);
          rels := rels + [q[3..]];
        }
        assert forall rel :: At(name, rel)[3..] == rel && At(name, rel)[..3] == SnapshotRoot(name);
      }
    }

    // The listed files are in the snapshot, one by one.
    method EntriesMatch(name: string, files: map<Path, Content>) returns (ok: bool)
      ensures ok <==> forall rel :: rel in files ==> HoldsEntry(tree, name, rel, files[rel])
    {
      var rest := files.Keys;
      while rest != {}
        invariant rest <= files.Keys
        invariant forall rel :: rel in files && rel !in rest ==> HoldsEntry(tree, name, rel, files[rel])
        decreases |rest|
      {
        var rel :| rel in rest;
        rest := rest - {rel};
        if rel == [] || ".." in rel || At(name, rel) !in tree || tree[At(name, rel)] != File(files[rel]) {
          return false;
        }
        if IsDatabase(rel) && !IsSoundDatabase(tree[At(name, rel)].content) {
          return false;
        }
      }
      ok := true;
    }

    method Verify(name: string) returns (ok: bool)
      ensures ok <==> Verified(tree, name)
    {
      hide HoldsEntry;
      var at := ManifestPath(name);
      if at !in tree || !tree[at].File? || !tree[at].content.Manifest? {
        return false;
      }
      var files := tree[at].content.files;
      ok := EntriesMatch(name, files);
      if !ok {
        return;
      }
      var actual := set q | q in tree && |q| >= 3 && q[..3] == SnapshotRoot(name) && tree[q].File? :: q[3..];
      forall rel ensures rel in actual <==> At(name, rel) in tree && tree[At(name, rel)].File? {
        assert At(name, rel)[3..] == rel && At(name, rel)[..3] == SnapshotRoot(name);
        if rel in actual {
          var q :| q in tree && |q| >= 3 && q[..3] == SnapshotRoot(name) && tree[q].File? && q[3..] == rel;
          assert q == At(name, rel);
        }
      }
      EntriesAreFiles(tree, name, files);
      ok := actual == files.Keys;
    }

    // ---------- Rollback ----------

    // The clearing loop.
    method ClearTree(listing: seq<Path>) returns (ok: bool, ghost ran: seq<Op>)
      modifies this
      ensures Progress(old(tree), tree, Clears(listing), ran, ok, budget == 0)
      ensures ok ==> ran == Clears(listing)
    {
      hide Run;
      hide Apply;
      hide Clears;
      hide Progress;
      ok, ran := true, [];
      var i := 0;
      ProgressStarts(tree, Clears(listing), budget == 0);
      assert listing[..0] == [];
      ClearsNothing();
      while i < |listing| && ok
        invariant 0 <= i <= |listing|
        invariant Progress(old(tree), tree, Clears(listing), ran, ok, budget == 0)
        invariant ok ==> ran == Clears(listing[..i])
        decreases |listing| - i
      {
        ghost var before, stopped := tree, budget == 0;
        ok := Do(Clear(listing[i]));
        ClearsNext(listing, i);
        if stopped {
          ProgressHalts(old(tree), tree, Clears(listing), ran);
        } else {
          ProgressGrows(old(tree), before, tree, Clears(listing), ran, Clear(listing[i]), ok, stopped, budget == 0);
          ran := ran + [Clear(listing[i])];
        }
        i := i + 1;
      }
      assert listing[..|listing|] == listing;
    }

    // The restoring loop: the snapshot is read from the tree as it is now.
    method RestoreTree(name: string, rels: seq<Path>, junk: Path -> Content, ghost t: Tree, ghost before: seq<Op>)
      returns (ok: bool, ghost ran: seq<Op>)
      requires WellFormed(t) && Sound(t, name) && Run(Disk(t, true), before) == Disk(tree, true)
      requires forall q :: Protected(q) ==> LeavesAlone(before, q)
      modifies this
      ensures Progress(t, tree, before + RestoreAll(t, name, rels, junk), ran, ok, budget == 0)
      ensures ok ==> ran == before + RestoreAll(t, name, rels, junk)
    {
      hide Run;
      hide Apply;
      hide WellFormed;
      hide Sound;
      hide Progress;
      hide RestoreAll;
      hide RestoreOne;
      hide LeavesAlone;
      ghost var script := before + RestoreAll(t, name, rels, junk);
      ok, ran := true, before;
      var i := 0;
      assert rels[..0] == [];
      RestoresNothing(t, name, junk);
      assert before + [] == before;
      ProgressAt(t, tree, script, before, budget == 0);
      while i < |rels| && ok
        invariant 0 <= i <= |rels|
        invariant Progress(t, tree, script, ran, ok, budget == 0)
        invariant ok ==> ran == before + RestoreAll(t, name, rels[..i], junk)
        decreases |rels| - i
      {
        var rel := rels[i];
        ghost var u := tree;
        SnapshotStays(t, u, name, before, rels[..i], junk, rel, budget == 0, script);
        var ops := RestoreOne(tree, name, rel, junk(rel));
        ghost var cut;
        RestoreOneHasNoCheck(tree, name, rel, junk(rel));
        ok, cut := DoAll(ops);
        RestoresNext(t, name, rels, junk, i);
        assert ops[..|ops|] == ops;
        PrefixUnder(before, RestoreAll(t, name, rels[..i], junk) + ops, RestoreAll(t, name, rels, junk));
        assert ran + ops == before + (RestoreAll(t, name, rels[..i], junk) + ops);
        ProgressSegment(t, u, tree, script, ran, ops, cut, ok, budget == 0);
        ran := ran + ops[..cut];
        i := i + 1;
      }
      assert rels[..|rels|] == rels;
    }

    // The whole rollback. `junk` is what a file holds while its copy is not
    // complete.
    method Rollback(junk: Path -> Content) returns (ok: bool, ghost done: Event)
      requires WellFormed(tree)
      requires forall name :: PendingNames(tree, name) && Verified(tree, name) ==> Sound(tree, name)
      modifies this
      ensures done.Rollback? && tree == Next(old(tree), done)
      ensures ok ==> GuardedRestore(old(tree), tree, done.name)
      ensures !ok && budget > 0 ==> HasOtherOutside(old(tree)) || !PendingNames(old(tree), done.name)
                                    || !Verified(old(tree), done.name)
    {
      hide Run;
      hide Apply;
      hide Sound;
      hide WellFormed;
      hide Verified;
      hide IsListing;
      hide IsSnapshotListing;
      hide Progress;
      hide Next;
      hide Clears;
      hide RestoreAll;
      hide Restored;
      hide HasOtherOutside;
      ghost var t := tree;
      var listing := Walk();
      ok := false;
      if [PENDING] !in tree || !tree[[PENDING]].File? || !tree[[PENDING]].content.Marker? {
        done := Event.Rollback("", listing, [], junk, 0);
        NotBegun(t, done);
        return;
      }
      var name := tree[[PENDING]].content.name;
      var rels := SnapshotEntries(name);
      done := Event.Rollback(name, listing, rels, junk, 0);
      NotBegun(t, done);
      var verified := Verify(name);
      if !verified {
        return;
      }
      ghost var script := RollbackScript(t, name, listing, rels, junk);
      ghost var ran;
      ok, ran := ClearTree(listing);
      RollbackParts(t, tree, name, listing, rels, junk, ran, ok, budget == 0);
      if ok {
        ok, ran := RestoreTree(name, rels, junk, t, Clears(listing));
        ghost var stopped, before := budget == 0, tree;
        ProgressWidens(t, tree, Clears(listing) + RestoreAll(t, name, rels, junk), [Unlink([PENDING])], ran, ok,
                       stopped);
        if ok {
          ok := Do(Unlink([PENDING]));
          if stopped {
            ProgressHalts(t, tree, script, ran);
          } else {
            ProgressGrows(t, before, tree, script, ran, Unlink([PENDING]), ok, stopped, budget == 0);
            ran := ran + [Unlink([PENDING])];
          }
        }
      }
      done := Event.Rollback(name, listing, rels, junk, |ran|);
      RollbackRestores(t, name, listing, rels, junk);
      ProgressIsNext(t, tree, done, ran, ok, budget == 0);
    }

    // ---------- Prepare ----------

    method Sources() returns (sources: seq<Path>)
      ensures IsSourceListing(tree, sources)
    {
      sources := [];
      var rest := tree.Keys;
      while rest != {}
        invariant rest <= tree.Keys
        invariant forall p :: p in sources <==> IsSaved(tree, p) && p !in rest
        decreases |rest|
      {
        var p :| p in rest;
        rest := rest - {p};
        if IsSaved(tree, p) {
          sources := sources + [p];
        }
      }
    }

    // The verification of a new backup, as one operation.
    method DoCheck(name: string) returns (ok: bool)
      modifies this`budget
      ensures old(budget) == 0 ==> !ok && budget == 0
      ensures old(budget) > 0 ==> budget == old(budget) - 1 && Disk(tree, ok) == Apply(Disk(tree, true), Check(name))
    {
      ok := false;
      if budget > 0 {
        budget := budget - 1;
        ok := Verify(name);
      }
    }

    // The copying loop, which also notes what each copy holds.
    method SaveFiles(name: string, sources: seq<Path>, junk: Path -> Content, ghost t: Tree, ghost before: seq<Op>)
      returns (ok: bool, files: map<Path, Content>, ghost ran: seq<Op>)
      requires WellFormed(t) && Mirror(t, tree, name) && Run(Disk(t, true), before) == Disk(tree, true)
      requires IsSourceListing(t, sources)
      modifies this
      ensures Progress(t, tree, before + SaveAll(t, name, sources, junk), ran, ok, budget == 0)
      ensures ok ==> ran == before + SaveAll(t, name, sources, junk) && Mirror(t, tree, name) && files == SavedFiles(t)
      ensures ok ==> forall p :: p in sources ==> At(name, p) in tree
      ensures before <= ran
    {
      hide Run;
      hide Apply;
      hide WellFormed;
      hide Mirror;
      hide Progress;
      hide SaveAll;
      hide SaveOne;
      hide IsSaved;
      hide Captured;
      ghost var script := before + SaveAll(t, name, sources, junk);
      ok, ran, files := true, before, map[];
      var i := 0;
      assert sources[..0] == [];
      SavesNothing(t, name, junk);
      assert before + [] == before;
      ProgressAt(t, tree, script, before, budget == 0);
      while i < |sources| && ok
        invariant 0 <= i <= |sources|
        invariant Progress(t, tree, script, ran, ok, budget == 0)
        invariant ok ==> ran == before + SaveAll(t, name, sources[..i], junk) && Mirror(t, tree, name)
        invariant ok ==> forall p :: p in sources[..i] ==> At(name, p) in tree
        invariant ok ==> files.Keys == (set p | p in sources[..i])
        invariant before <= ran
        invariant ok ==> forall p :: p in files ==> Captured(t, p) == Some(files[p])
        decreases |sources| - i
      {
        var p := sources[i];
        ghost var u := tree;
        assert p in sources;
        SourceStays(t, u, name, p, junk(p));
        SplitAt(sources, i);
        ProgressIsRun(t, u, script, ran, budget == 0);
        var ops := SaveOne(tree, name, p, junk(p));
        ghost var cut;
        SaveOneHasNoCheck(tree, name, p, junk(p));
        ok, cut := DoAll(ops);
        SavesNext(t, name, sources, junk, i, before);
        assert ops[..|ops|] == ops;
        ProgressSegment(t, u, tree, script, ran, ops, cut, ok, budget == 0);
        ran := ran + ops[..cut];
        if ok {
          SavedNow(t, u, tree, name, p, junk(p), sources[..i]);
          files := files[p := tree[At(name, p)].content];
        }
        i := i + 1;
      }
      assert sources[..|sources|] == sources;
      if ok {
        NotedAll(t, sources, files);
      }
    }

    // `done` is what happened as events: a rollback if a marker was found, then
    // a preparation.
    method Prepare(name: string, unique: string, junk: Path -> Content) returns (ok: bool, ghost done: seq<Event>)
      requires WellFormed(tree)
      requires forall name :: PendingNames(tree, name) && Verified(tree, name) ==> Sound(tree, name)
      modifies this
      ensures tree == RunEvents(old(tree), done) && |done| <= 2
      ensures ReadySet(old(tree)) ==> ok && tree == old(tree)
      ensures ok && !ReadySet(old(tree)) ==> PendingNames(tree, name) && Verified(tree, name)
      ensures !ok && budget > 0 ==>
        if [PENDING] in old(tree) && |done| == 1
        then done[0].Rollback? && (HasOtherOutside(old(tree)) || !PendingNames(old(tree), done[0].name)
                                   || !Verified(old(tree), done[0].name))
        else done != [] && PreparationFails(RunEvents(old(tree), done[..|done| - 1]), done[|done| - 1], name)
    {
      hide Next;
      hide RunEvents;
      hide Verified;
      hide Sound;
      hide WellFormed;
      hide HasOtherOutside;
      hide PreparationFails;
      hide GuardedRestore;
      done := [];
      ok := true;
      NoEvents(tree);
      if [READY] in tree && tree[[READY]].File? {
        return;
      }
      if [PENDING] in tree {
        ghost var e;
        ok, e := Rollback(junk);
        OneEvent(old(tree), e);
        done := [e];
        if !ok {
          return;
        }
        AfterRollback(old(tree), tree, e.name);
      }
      StaysWellFormed(old(tree), done);
      ghost var e;
      ok, e := PrepareNow(name, unique, junk);
      MoreEvents(old(tree), done, e);
      assert (done + [e])[..|done|] == done;
      done := done + [e];
    }

    // After the directories: copies, manifest, verification, marker.
    method FillBackup(name: string, unique: string, sources: seq<Path>, junk: Path -> Content, ghost t: Tree)
      returns (ok: bool, ghost ran: seq<Op>)
      requires WellFormed(t) && Run(Disk(t, true), MakeBackup(name)) == Disk(tree, true) && IsSourceListing(t, sources)
      requires !HasOther(t)
      modifies this
      ensures Progress(t, tree, PrepareScript(t, name, unique, sources, junk), ran, ok, budget == 0)
      ensures ok ==> ran == PrepareScript(t, name, unique, sources, junk)
      ensures MakeBackup(name) <= ran
    {
      hide Run;
      hide Apply;
      hide WellFormed;
      hide Mirror;
      hide Progress;
      hide SaveAll;
      hide IsSourceListing;
      hide PrepareScript;
      hide MakeBackup;
      hide SavedFiles;
      hide WriteManifest;
      hide WriteMarker;
      ghost var script := PrepareScript(t, name, unique, sources, junk);
      MakeBackupRuns(t, name);
      MakeBackupMirrors(t, name);
      PrepareParts(t, name, unique, sources, junk);
      var files;
      ok, files, ran := SaveFiles(name, sources, junk, t, MakeBackup(name));
      ProgressInside(t, tree, MakeBackup(name) + SaveAll(t, name, sources, junk), script, ran, ok, budget == 0);
      if ok {
        ghost var u, cut := tree, 0;
        ProgressIsRun(t, tree, script, ran, budget == 0);
        var ops := ManifestOps(name, unique, junk(ManifestPath(name)), files);
        ManifestOpsAre(t, name, unique, junk(ManifestPath(name)), files);
        ok, cut := DoAll(ops);
        assert ops[..|ops|] == ops;
        ProgressSegment(t, u, tree, script, ran, ops, cut, ok, budget == 0);
        ran := ran + ops[..cut];
      }
      if ok {
        ghost var u, stopped := tree, budget == 0;
        ok := DoCheck(name);
        if stopped {
          ProgressHalts(t, tree, script, ran);
        } else {
          ProgressGrows(t, u, tree, script, ran, Check(name), ok, stopped, budget == 0);
          ran := ran + [Check(name)];
        }
      }
      if ok {
        ghost var u, cut := tree, 0;
        ProgressIsRun(t, tree, script, ran, budget == 0);
        var ops := MarkerOps(PENDING, name, unique, junk([PENDING]));
        ok, cut := DoAll(ops);
        assert ops[..|ops|] == ops;
        ProgressSegment(t, u, tree, script, ran, ops, cut, ok, budget == 0);
        ran := ran + ops[..cut];
      }
    }

    method PrepareNow(name: string, unique: string, junk: Path -> Content) returns (ok: bool, ghost done: Event)
      requires WellFormed(tree) && !ReadySet(tree) && [PENDING] !in tree
      modifies this
      ensures done.Prepare? && tree == Next(old(tree), done)
      ensures ok ==> [PENDING] in tree && PendingNames(tree, name) && Verified(tree, name)
      ensures ok ==> ActiveSame(old(tree), tree)
      ensures !ok && budget > 0 ==> PreparationFails(old(tree), done, name)
      ensures !ok && budget > 0 && BackupRoot(name) !in old(tree) ==> forall q :: BackupRoot(name) <= q ==> q !in tree
    {
      hide Run;
      hide Apply;
      hide WellFormed;
      hide Progress;
      hide IsSourceListing;
      hide PrepareScript;
      hide MakeBackup;
      hide Next;
      hide Verified;
      hide ActiveSame;
      ghost var t := tree;
      var sources := Sources();
      ghost var script, cut, ran := PrepareScript(t, name, unique, sources, junk), 0, [];
      var ops := MakeBackupOps(name);
      ok, cut := DoAll(ops);
      assert ops[..|ops|] == ops;
      PrepareBegins(t, tree, name, unique, sources, junk, cut, ok, budget == 0);
      ran := ops[..cut];
      var made := ok;
      if ok {
        if HasOther(tree) {
          ghost var u, stopped := tree, budget == 0;
          ok := Do(Raise);
          MakeBackupAddsDirs(t, u, name);
          PrepareRefuses(t, u, tree, name, unique, sources, junk, ok, stopped, budget == 0);
          if !stopped {
            ran := ran + [Raise];
          }
        } else {
          MakeBackupAddsDirs(t, tree, name);
          ok, ran := FillBackup(name, unique, sources, junk, t);
        }
      }
      if !made && BackupRoot(name) !in t && budget > 0 {
        NotMadeIsGone(t, tree, name, cut);
      }
      ghost var u, stopped := tree, budget == 0;
      ghost var swept := {};
      SweptIsGone(u, name);
      if !ok && made && budget > 0 {
        swept := tree.Keys;
        tree := Swept(tree, name, tree.Keys);
      }
      done := Event.Prepare(name, unique, sources, junk, |ran|, swept);
      PrepareIsNext(t, u, done, ran, ok, made, stopped);
      if ok {
        PrepareResult(t, u, name, unique, sources, junk);
      }
    }

    // ---------- Commit ----------

    method Commit(unique: string, partial: Content) returns (ok: bool, ghost done: Event)
      requires WellFormed(tree)
      modifies this
      ensures done.Commit? && tree == Next(old(tree), done)
      ensures ok && [PENDING] !in old(tree) ==> tree == old(tree)
      ensures ok && [PENDING] in old(tree) ==> ReadySet(tree) && [PENDING] !in tree && Verified(old(tree), done.name)
      ensures !ok && budget > 0 ==>
        !Run(Disk(old(tree), true), CommitScript(old(tree), done.name, unique, partial)).ok
    {
      hide Run;
      hide Verified;
      ghost var t := tree;
      ok := [PENDING] !in tree;
      done := Event.Commit("", unique, partial, 0);
      CommitNotBegun(t, done);
      if !ok && !PendingNames(t, "") {
        CommitRefused(t, "", unique, partial);
      }
      if ok || !tree[[PENDING]].File? || !tree[[PENDING]].content.Marker? {
        return;
      }
      var name := tree[[PENDING]].content.name;
      done := Event.Commit(name, unique, partial, 0);
      CommitNotBegun(t, done);
      var verified := Verify(name);
      if !verified {
        CommitRefused(t, name, unique, partial);
        return;
      }
      var ops := MarkerOps(READY, name, unique, partial) + [Unlink([PENDING])];
      ghost var cut;
      ok, cut := DoAll(ops);
      done := Event.Commit(name, unique, partial, cut);
      assert ops[..|ops|] == ops;
      assert UpTo(ops, cut) == ops[..cut];
      if ok {
        CommitResult(t, name, unique, partial);
      } else if budget > 0 {
        FailedPartFails(t, ops, ops[..cut]);
      }
    }
  }

  // The uninterrupted preparation of this tree fails, whatever the order of
  // the sources.
  ghost predicate PreparationFails(t: Tree, e: Event, name: string)
  {
    e.Prepare? && e.name == name && IsSourceListing(t, e.sources)
    && !Run(Disk(t, true), PrepareScript(t, name, e.unique, e.sources, e.junk)).ok
  }

  ghost predicate GuardedRestore(t: Tree, u: Tree, name: string)
  {
    PendingNames(t, name) && Verified(t, name) && Restored(t, u, name)
  }

  lemma EntriesAreFiles(t: Tree, name: string, files: map<Path, Content>)
    requires forall rel :: rel in files ==> HoldsEntry(t, name, rel, files[rel])
    ensures forall rel :: rel in files ==> At(name, rel) in t && t[At(name, rel)].File?
  {
    hide IsDatabase;
  }

  lemma AfterRollback(t: Tree, u: Tree, name: string)
    requires GuardedRestore(t, u, name)
    requires forall name :: PendingNames(t, name) && Verified(t, name) ==> Sound(t, name)
    ensures [PENDING] !in u && !ReadySet(u)
  {
    hide Verified;
    assert Sound(t, name);
    assert At(name, [READY]) in t ==> SoundAt(t, name, [READY]);
  }

  lemma NoEvents(t: Tree)
    ensures RunEvents(t, []) == t
  {
  }

  // What a program ran so far is the first part of its script; it is `stopped`
  // when the machine has no operation left.
  ghost predicate Progress(t: Tree, u: Tree, script: seq<Op>, ran: seq<Op>, ok: bool, stopped: bool)
  {
    && ran <= script
    && u == Run(Disk(t, true), ran).tree
    && (ok ==> Run(Disk(t, true), ran).ok)
    && (!ok ==> stopped || !Run(Disk(t, true), ran).ok)
  }

  lemma ProgressStarts(t: Tree, script: seq<Op>, stopped: bool)
    ensures Progress(t, t, script, [], true, stopped)
  {
  }

  lemma ProgressAt(t: Tree, u: Tree, script: seq<Op>, ran: seq<Op>, stopped: bool)
    requires ran <= script && Run(Disk(t, true), ran) == Disk(u, true)
    ensures Progress(t, u, script, ran, true, stopped)
  {
  }

  lemma ProgressHalts(t: Tree, u: Tree, script: seq<Op>, ran: seq<Op>)
    requires Progress(t, u, script, ran, true, true)
    ensures Progress(t, u, script, ran, false, true)
  {
  }

  lemma ProgressGrows(t: Tree, u: Tree, v: Tree, script: seq<Op>, ran: seq<Op>, op: Op, ok: bool, stopped: bool,
                      after: bool)
    requires Progress(t, u, script, ran, true, stopped) && ran + [op] <= script
    requires Disk(v, ok) == Apply(Disk(u, true), op)
    ensures Progress(t, v, script, ran + [op], ok, after)
  {
    RunConcat(Disk(t, true), ran, [op]);
    RunOne(Disk(u, true), op);
  }

  lemma ProgressSegment(t: Tree, u: Tree, v: Tree, script: seq<Op>, ran: seq<Op>, ops: seq<Op>, cut: nat, ok: bool,
                        stopped: bool)
    requires ran + ops <= script && cut <= |ops|
    requires Run(Disk(t, true), ran) == Disk(u, true)
    requires v == Run(Disk(u, true), ops[..cut]).tree
    requires ok ==> Run(Disk(u, true), ops[..cut]).ok
    requires !ok ==> stopped || !Run(Disk(u, true), ops[..cut]).ok
    ensures Progress(t, v, script, ran + ops[..cut], ok, stopped)
  {
    RunConcat(Disk(t, true), ran, ops[..cut]);
    assert ran + ops[..cut] <= ran + ops <= script;
  }

  lemma PrefixUnder(before: seq<Op>, part: seq<Op>, all: seq<Op>)
    requires part <= all
    ensures before + part <= before + all
  {
  }

  lemma ClearsNothing()
    ensures Clears([]) == []
  {
  }

  lemma SplitAt(s: seq<Path>, i: nat)
    requires i < |s|
    ensures s[..i] + [s[i]] + s[i + 1..] == s
    ensures s[..i] + [s[i]] == s[..i + 1]
  {
  }

  lemma ClearsNext(listing: seq<Path>, i: nat)
    requires i < |listing|
    ensures Clears(listing[..i + 1]) == Clears(listing[..i]) + [Clear(listing[i])] <= Clears(listing)
  {
    hide Clears;
    ClearsParts(listing[..i], listing[i], listing[i + 1..]);
    SplitAt(listing, i);
  }

  lemma ClearsParts(a: seq<Path>, p: Path, b: seq<Path>)
    ensures Clears(a + [p]) == Clears(a) + [Clear(p)] <= Clears(a + [p] + b)
  {
    hide Clears;
    ClearsSnoc(a, p);
    ClearsSplit(a + [p], b);
    PrefixOfConcat(Clears(a + [p]), Clears(b));
  }

  lemma ClearsSnoc(listing: seq<Path>, p: Path)
    ensures Clears(listing + [p]) == Clears(listing) + [Clear(p)]
  {
    assert (listing + [p])[..|listing|] == listing;
  }

  lemma PrefixOfConcat(a: seq<Op>, b: seq<Op>)
    ensures a <= a + b
  {
  }

  lemma RestoresNothing(t: Tree, name: string, junk: Path -> Content)
    ensures RestoreAll(t, name, [], junk) == []
  {
  }

  lemma {:induction false} RestoresSplit(t: Tree, name: string, a: seq<Path>, b: seq<Path>, junk: Path -> Content)
    ensures RestoreAll(t, name, a + b, junk) == RestoreAll(t, name, a, junk) + RestoreAll(t, name, b, junk)
  {
    hide RestoreOne;
    if b == [] {
      assert a + b == a;
    } else {
      RestoresSplit(t, name, a, b[..|b| - 1], junk);
      assert (a + b)[..|a + b| - 1] == a + b[..|b| - 1];
    }
  }

  lemma RestoresNext(t: Tree, name: string, rels: seq<Path>, junk: Path -> Content, i: nat)
    requires i < |rels|
    ensures RestoreAll(t, name, rels[..i + 1], junk)
            == RestoreAll(t, name, rels[..i], junk) + RestoreOne(t, name, rels[i], junk(rels[i]))
    ensures RestoreAll(t, name, rels[..i], junk) + RestoreOne(t, name, rels[i], junk(rels[i]))
            <= RestoreAll(t, name, rels, junk)
  {
    hide RestoreOne;
    hide RestoreAll;
    SplitAt(rels, i);
    RestoresParts(t, name, rels[..i], rels[i], rels[i + 1..], junk);
  }

  lemma RestoresParts(t: Tree, name: string, a: seq<Path>, rel: Path, b: seq<Path>, junk: Path -> Content)
    ensures RestoreAll(t, name, a + [rel], junk)
            == RestoreAll(t, name, a, junk) + RestoreOne(t, name, rel, junk(rel))
            <= RestoreAll(t, name, a + [rel] + b, junk)
  {
    hide RestoreOne;
    hide RestoreAll;
    RestoresSnoc(t, name, a, rel, junk);
    RestoresSplit(t, name, a + [rel], b, junk);
    PrefixOfConcat(RestoreAll(t, name, a + [rel], junk), RestoreAll(t, name, b, junk));
  }

  lemma RestoresSnoc(t: Tree, name: string, rels: seq<Path>, rel: Path, junk: Path -> Content)
    ensures RestoreAll(t, name, rels + [rel], junk)
            == RestoreAll(t, name, rels, junk) + RestoreOne(t, name, rel, junk(rel))
  {
    hide RestoreOne;
    assert (rels + [rel])[..|rels|] == rels;
  }

  // Restoring does not change the snapshot it reads.
  lemma SnapshotStays(t: Tree, u: Tree, name: string, before: seq<Op>, rels: seq<Path>, junk: Path -> Content,
                      rel: Path, stopped: bool, script: seq<Op>)
    requires WellFormed(t) && Sound(t, name)
    requires forall q :: Protected(q) ==> LeavesAlone(before, q)
    requires Progress(t, u, script, before + RestoreAll(t, name, rels, junk), true, stopped)
    ensures RestoreOne(u, name, rel, junk(rel)) == RestoreOne(t, name, rel, junk(rel))
    ensures Run(Disk(t, true), before + RestoreAll(t, name, rels, junk)) == Disk(u, true)
  {
    var q := At(name, rel);
    assert Protected(q);
    RestoreAllLeaves(t, name, rels, junk, q);
    ConcatLeaves(before, RestoreAll(t, name, rels, junk), q);
    hide RestoreAll;
    RunFrame(Disk(t, true), before + RestoreAll(t, name, rels, junk), q);
  }

  lemma RestoreOneHasNoCheck(t: Tree, name: string, rel: Path, junk: Content)
    ensures forall i :: 0 <= i < |RestoreOne(t, name, rel, junk)| ==> !RestoreOne(t, name, rel, junk)[i].Check?
  {
    EnsureAllOps(rel);
    if rel != [] {
      EnsureAllOps(rel[..|rel| - 1]);
    }
  }

  lemma ProgressWidens(t: Tree, u: Tree, script: seq<Op>, more: seq<Op>, ran: seq<Op>, ok: bool, stopped: bool)
    requires Progress(t, u, script, ran, ok, stopped)
    ensures Progress(t, u, script + more, ran, ok, stopped)
  {
  }

  lemma RollbackParts(t: Tree, u: Tree, name: string, listing: seq<Path>, rels: seq<Path>, junk: Path -> Content,
                      ran: seq<Op>, ok: bool, stopped: bool)
    requires Progress(t, u, Clears(listing), ran, ok, stopped)
    ensures Progress(t, u, Clears(listing) + RestoreAll(t, name, rels, junk) + [Unlink([PENDING])], ran, ok, stopped)
    ensures forall q :: Protected(q) ==> LeavesAlone(Clears(listing), q)
    ensures ok && ran == Clears(listing) ==> Run(Disk(t, true), Clears(listing)) == Disk(u, true)
  {
    var restores := RestoreAll(t, name, rels, junk);
    ProgressWidens(t, u, Clears(listing), restores + [Unlink([PENDING])], ran, ok, stopped);
    assert Clears(listing) + (restores + [Unlink([PENDING])]) == Clears(listing) + restores + [Unlink([PENDING])];
    forall q | Protected(q) ensures LeavesAlone(Clears(listing), q) {
      ClearsTouch(listing, q);
    }
  }

  lemma NotBegun(t: Tree, done: Event)
    requires done.Rollback? && done.cut == 0
    ensures Next(t, done) == t
  {
    hide IsListing;
    hide IsSnapshotListing;
    hide Verified;
    hide Clears;
    hide RestoreAll;
    var script := RollbackScript(t, done.name, done.listing, done.rels, done.junk);
    assert script != [];
    assert UpTo(script, 0) == [];
  }

  // A rollback that ran part of its script is an interrupted one; one that ran
  // all of it completed.
  lemma ProgressIsNext(t: Tree, u: Tree, done: Event, ran: seq<Op>, ok: bool, stopped: bool)
    requires done.Rollback? && IsListing(t, done.listing) && IsSnapshotListing(t, done.name, done.rels)
    requires var script := RollbackScript(t, done.name, done.listing, done.rels, done.junk);
      Progress(t, u, script, ran, ok, stopped) && done.cut == |ran| && (ok ==> ran == script)
    ensures u == Next(t, done)
    ensures ok ==> Run(Disk(t, true), RollbackScript(t, done.name, done.listing, done.rels, done.junk)) == Disk(u, true)
    ensures !ok && !stopped ==> !Run(Disk(t, true), RollbackScript(t, done.name, done.listing, done.rels, done.junk)).ok
  {
    var script := RollbackScript(t, done.name, done.listing, done.rels, done.junk);
    assert UpTo(script, |ran|) == ran;
    if !ok && !stopped {
      assert script == ran + script[|ran|..];
      RunConcat(Disk(t, true), ran, script[|ran|..]);
      RunAfterError(Run(Disk(t, true), ran), script[|ran|..]);
    }
  }

  lemma SavesNothing(t: Tree, name: string, junk: Path -> Content)
    ensures SaveAll(t, name, [], junk) == []
  {
  }

  lemma {:induction false} SavesSplit(t: Tree, name: string, a: seq<Path>, b: seq<Path>, junk: Path -> Content)
    ensures SaveAll(t, name, a + b, junk) == SaveAll(t, name, a, junk) + SaveAll(t, name, b, junk)
  {
    hide SaveOne;
    if b == [] {
      assert a + b == a;
    } else {
      SavesSplit(t, name, a, b[..|b| - 1], junk);
      assert (a + b)[..|a + b| - 1] == a + b[..|b| - 1];
    }
  }

  lemma SavesSnoc(t: Tree, name: string, a: seq<Path>, p: Path, junk: Path -> Content)
    ensures SaveAll(t, name, a + [p], junk) == SaveAll(t, name, a, junk) + SaveOne(t, name, p, junk(p))
  {
    hide SaveOne;
    assert (a + [p])[..|a|] == a;
  }

  lemma SavesNext(t: Tree, name: string, sources: seq<Path>, junk: Path -> Content, i: nat, before: seq<Op>)
    requires i < |sources|
    ensures var ops := SaveOne(t, name, sources[i], junk(sources[i]));
      && before + SaveAll(t, name, sources[..i + 1], junk) == before + SaveAll(t, name, sources[..i], junk) + ops
      && before + SaveAll(t, name, sources[..i], junk) + ops <= before + SaveAll(t, name, sources, junk)
  {
    hide SaveOne;
    hide SaveAll;
    SplitAt(sources, i);
    var a, p, b := sources[..i], sources[i], sources[i + 1..];
    SavesSnoc(t, name, a, p, junk);
    SavesSplit(t, name, a + [p], b, junk);
    PrefixOfConcat(SaveAll(t, name, a + [p], junk), SaveAll(t, name, b, junk));
    PrefixUnder(before, SaveAll(t, name, a, junk) + SaveOne(t, name, p, junk(p)), SaveAll(t, name, sources, junk));
    assert before + SaveAll(t, name, a, junk) + SaveOne(t, name, p, junk(p))
        == before + (SaveAll(t, name, a, junk) + SaveOne(t, name, p, junk(p)));
  }

  lemma SaveOneHasNoCheck(t: Tree, name: string, p: Path, junk: Content)
    ensures forall i :: 0 <= i < |SaveOne(t, name, p, junk)| ==> !SaveOne(t, name, p, junk)[i].Check?
  {
    EnsureAllOps(At(name, p)[..|At(name, p)| - 1]);
  }

  // Saving does not change what it saves.
  lemma SourceStays(t: Tree, u: Tree, name: string, p: Path, junk: Content)
    requires Mirror(t, u, name) && IsSaved(t, p)
    ensures SaveOne(u, name, p, junk) == SaveOne(t, name, p, junk)
  {
    hide CopyTo;
    assert SameAt(t, u, p);
    LogIsRuntime(p);
    assert SameAt(t, u, LogPath(p));
    CapturedFrame(t, u, p);
  }

  lemma SavedNow(t: Tree, u: Tree, v: Tree, name: string, p: Path, junk: Content, earlier: seq<Path>)
    requires WellFormed(t) && Mirror(t, u, name) && IsSaved(t, p)
    requires Run(Disk(u, true), SaveOne(t, name, p, junk)) == Disk(v, true)
    requires forall x :: x in earlier ==> At(name, x) in u
    ensures Mirror(t, v, name) && At(name, p) in v && v[At(name, p)].File?
    ensures Captured(t, p) == Some(v[At(name, p)].content)
    ensures forall x :: x in earlier ==> At(name, x) in v
  {
    hide Run;
    hide SaveOne;
    hide Captured;
    if Captured(t, p).None? {
      SaveOneFails(t, Disk(u, true), name, p, junk);
      assert false;
    }
    SaveOneRuns(t, u, name, p, junk);
    MirrorEntry(t, v, name, p);
    forall x | x in earlier ensures At(name, x) in v {
      if At(name, x) != At(name, p) {
        assert SameAt(u, v, At(name, x));
      }
    }
  }

  lemma NotedAll(t: Tree, sources: seq<Path>, files: map<Path, Content>)
    requires IsSourceListing(t, sources) && files.Keys == (set p | p in sources)
    requires forall p :: p in files ==> Captured(t, p) == Some(files[p])
    ensures files == SavedFiles(t)
  {
    forall p ensures p in files <==> p in SavedFiles(t) {
      assert p in sources <==> IsSaved(t, p);
    }
  }

  lemma OneEvent(t: Tree, e: Event)
    ensures RunEvents(t, [e]) == Next(t, e)
  {
    assert [e][..0] == [];
  }

  lemma MoreEvents(t: Tree, done: seq<Event>, e: Event)
    ensures RunEvents(t, done + [e]) == Next(RunEvents(t, done), e)
  {
    assert (done + [e])[..|done|] == done;
  }

  lemma {:induction false} StaysWellFormed(t: Tree, done: seq<Event>)
    requires WellFormed(t)
    ensures WellFormed(RunEvents(t, done))
  {
    hide Next;
    if done != [] {
      StaysWellFormed(t, done[..|done| - 1]);
      NextStaysWellFormed(RunEvents(t, done[..|done| - 1]), done[|done| - 1]);
    }
  }

  lemma NextStaysWellFormed(t: Tree, e: Event)
    requires WellFormed(t)
    ensures WellFormed(Next(t, e))
  {
    hide Run;
    hide WellFormed;
    match e
    case Rollback(name, listing, rels, junk, cut) =>
      RunKeepsWellFormed(Disk(t, true), UpTo(RollbackScript(t, name, listing, rels, junk), cut));
    case Prepare(name, unique, sources, junk, cut, swept) =>
      RunKeepsWellFormed(Disk(t, true), UpTo(PrepareScript(t, name, unique, sources, junk), cut));
    case Commit(name, unique, partial, cut) =>
      RunKeepsWellFormed(Disk(t, true), UpTo(CommitScript(t, name, unique, partial), cut));
    case Migrate(u) =>
  }

  // The parts of a preparation, each the beginning of the script.
  lemma PrepareParts(t: Tree, name: string, unique: string, sources: seq<Path>, junk: Path -> Content)
    requires !HasOther(t)
    ensures var script := PrepareScript(t, name, unique, sources, junk);
      var a := MakeBackup(name) + SaveAll(t, name, sources, junk);
      var b := a + WriteManifest(t, name, unique, junk(ManifestPath(name)));
      var c := b + [Check(name)];
      a <= script && b <= script && c <= script && c + WriteMarker(PENDING, name, unique, junk([PENDING])) == script
  {
    hide MakeBackup;
    hide SaveAll;
    hide WriteManifest;
    hide WriteMarker;
  }

  function ManifestOps(name: string, unique: string, junk: Content, files: map<Path, Content>): (ops: seq<Op>)
    ensures forall i :: 0 <= i < |ops| ==> !ops[i].Check?
  {
    AtomicJson(ManifestPath(name), BackupRoot(name) + [TempOf("manifest.json", unique)], junk, Manifest(files))
  }

  lemma ManifestOpsAre(t: Tree, name: string, unique: string, junk: Content, files: map<Path, Content>)
    requires files == SavedFiles(t)
    ensures ManifestOps(name, unique, junk, files) == WriteManifest(t, name, unique, junk)
  {
  }

  function MarkerOps(marker: string, name: string, unique: string, junk: Content): (ops: seq<Op>)
    ensures forall i :: 0 <= i < |ops| ==> !ops[i].Check?
    ensures ops == WriteMarker(marker, name, unique, junk)
  {
    WriteMarker(marker, name, unique, junk)
  }

  function MakeBackupOps(name: string): (ops: seq<Op>)
    ensures forall i :: 0 <= i < |ops| ==> !ops[i].Check?
    ensures ops == MakeBackup(name)
  {
    MakeBackup(name)
  }

  lemma ProgressInside(t: Tree, u: Tree, part: seq<Op>, script: seq<Op>, ran: seq<Op>, ok: bool, stopped: bool)
    requires Progress(t, u, part, ran, ok, stopped) && part <= script
    ensures Progress(t, u, script, ran, ok, stopped)
  {
  }

  lemma ProgressIsRun(t: Tree, u: Tree, script: seq<Op>, ran: seq<Op>, stopped: bool)
    requires Progress(t, u, script, ran, true, stopped)
    ensures Run(Disk(t, true), ran) == Disk(u, true)
  {
  }

  lemma PrepareBegins(t: Tree, u: Tree, name: string, unique: string, sources: seq<Path>, junk: Path -> Content,
                      cut: nat, ok: bool, stopped: bool)
    requires cut <= |MakeBackup(name)| && u == Run(Disk(t, true), MakeBackup(name)[..cut]).tree
    requires ok ==> cut == |MakeBackup(name)| && Run(Disk(t, true), MakeBackup(name)).ok
    requires !ok ==> stopped || !Run(Disk(t, true), MakeBackup(name)[..cut]).ok
    ensures Progress(t, u, PrepareScript(t, name, unique, sources, junk), MakeBackup(name)[..cut], ok, stopped)
    ensures ok ==> Run(Disk(t, true), MakeBackup(name)) == Disk(u, true)
  {
    hide Run;
    hide SaveAll;
    hide WriteManifest;
    hide WriteMarker;
    assert MakeBackup(name)[..|MakeBackup(name)|] == MakeBackup(name);
  }

  lemma MakeBackupAddsDirs(t: Tree, u: Tree, name: string)
    requires WellFormed(t) && Run(Disk(t, true), MakeBackup(name)) == Disk(u, true)
    ensures HasOther(u) == HasOther(t)
  {
    hide Run;
    hide WellFormed;
    MakeBackupRuns(t, name);
    if HasOther(t) {
      var p :| p in t && t[p].Other?;
      assert p != SnapshotRoot(name) by {
        NoSnapshotYet(t, name);
      }
      assert p in u && u[p].Other?;
    }
  }

  lemma NoSnapshotYet(t: Tree, name: string)
    requires WellFormed(t) && BackupRoot(name) !in t
    ensures SnapshotRoot(name) !in t
  {
    assert SnapshotRoot(name)[..2] == BackupRoot(name);
    if SnapshotRoot(name) in t {
      NothingBelow(t, BackupRoot(name), SnapshotRoot(name));
    }
  }

  lemma PrepareRefuses(t: Tree, u: Tree, v: Tree, name: string, unique: string, sources: seq<Path>,
                       junk: Path -> Content, ok: bool, stopped: bool, after: bool)
    requires HasOther(t) && Progress(t, u, PrepareScript(t, name, unique, sources, junk), MakeBackup(name), true,
                                     stopped)
    requires stopped ==> !ok && v == u && after
    requires !stopped ==> Disk(v, ok) == Apply(Disk(u, true), Raise)
    ensures Progress(t, v, PrepareScript(t, name, unique, sources, junk),
                     if stopped then MakeBackup(name) else MakeBackup(name) + [Raise], ok, after)
    ensures !ok
  {
    hide Run;
    if stopped {
      ProgressHalts(t, u, PrepareScript(t, name, unique, sources, junk), MakeBackup(name));
    } else {
      ProgressGrows(t, u, v, PrepareScript(t, name, unique, sources, junk), MakeBackup(name), Raise, ok, stopped,
                    after);
    }
  }

  // What was not removed is still in a directory.
  lemma SweepStaysWellFormed(t: Tree, name: string)
    requires WellFormed(t)
    ensures WellFormed(Swept(t, name, t.Keys))
  {
    var u := Swept(t, name, t.Keys);
    forall q | q in u ensures q != [] && HasParent(u, q) {
      assert HasParent(t, q);
    }
  }

  lemma SweptIsGone(t: Tree, name: string)
    ensures forall q :: BackupRoot(name) <= q ==> q !in Swept(t, name, t.Keys)
    ensures forall q :: q in t && !(BackupRoot(name) <= q) ==> q in Swept(t, name, t.Keys)
  {
  }

  // Directories that could not be made for want of the parent leave nothing.
  lemma NotMadeIsGone(t: Tree, u: Tree, name: string, cut: nat)
    requires WellFormed(t) && BackupRoot(name) !in t && cut <= |MakeBackup(name)|
    requires u == Run(Disk(t, true), MakeBackup(name)[..cut]).tree && !Run(Disk(t, true), MakeBackup(name)[..cut]).ok
    ensures forall q :: BackupRoot(name) <= q ==> q !in u
  {
    var ops := MakeBackup(name);
    FailedPartFails(t, ops, ops[..cut]);
    MakeBackupRuns(t, name);
    assert !CanBeDir(t, [BACKUP_DIR]);
    if cut > 0 {
      RunOne(Disk(t, true), ops[0]);
      assert ops[..cut] == [ops[0]] + ops[1..cut];
      RunConcat(Disk(t, true), [ops[0]], ops[1..cut]);
      RunAfterError(Disk(t, false), ops[1..cut]);
    } else {
      RunNothing(Disk(t, true));
    }
    forall q | BackupRoot(name) <= q ensures q !in t {
      if q in t && |q| > 2 {
        assert q[..2] == BackupRoot(name);
        NothingBelow(t, BackupRoot(name), q);
      }
      assert |q| == 2 ==> q == BackupRoot(name);
    }
  }

  lemma SweepNothing(t: Tree, name: string)
    ensures Swept(t, name, {}) == t
  {
  }

  lemma PrepareIsNext(t: Tree, u: Tree, done: Event, ran: seq<Op>, ok: bool, made: bool, stopped: bool)
    requires done.Prepare? && WellFormed(t) && !ReadySet(t) && [PENDING] !in t && IsSourceListing(t, done.sources)
    requires var script := PrepareScript(t, done.name, done.unique, done.sources, done.junk);
      Progress(t, u, script, ran, ok, stopped) && (ok ==> ran == script)
    requires done.cut == |ran|
    requires made ==> |ran| >= |MakeBackup(done.name)| && Run(Disk(t, true), MakeBackup(done.name)).ok
    requires !made ==> !ok && ran <= MakeBackup(done.name)
    requires done.swept == if !ok && made && !stopped then u.Keys else {}
    ensures Next(t, done) == if !ok && made && !stopped then Swept(u, done.name, u.Keys) else u
    ensures !ok && !stopped ==> PreparationFails(t, done, done.name)
  {
    var script := PrepareScript(t, done.name, done.unique, done.sources, done.junk);
    assert UpTo(script, |ran|) == ran;
    if !ok && !stopped {
      FailedPartFails(t, script, ran);
    }
    RunKeepsWellFormed(Disk(t, true), ran);
    SweepStaysWellFormed(u, done.name);
    SweepNothing(u, done.name);
    if made {
      assert UpTo(MakeBackup(done.name), |ran|) == MakeBackup(done.name);
    }
    hide Run;
    hide PrepareScript;
    hide Swept;
    hide WellFormed;
    hide IsSourceListing;
  }

  lemma PrepareResult(t: Tree, u: Tree, name: string, unique: string, sources: seq<Path>, junk: Path -> Content)
    requires WellFormed(t) && [PENDING] !in t && IsSourceListing(t, sources)
    requires var script := PrepareScript(t, name, unique, sources, junk);
      Progress(t, u, script, script, true, false) || Progress(t, u, script, script, true, true)
    ensures PendingNames(u, name) && Verified(u, name) && ActiveSame(t, u)
  {
    hide Run;
    hide PrepareScript;
    hide WellFormed;
    InvAtStartUnchanged(t);
    PrepareCompletes(t, name, unique, sources, junk, Origin(t));
  }

  lemma InvAtStartUnchanged(t: Tree)
    ensures Unchanged(t, Origin(t))
  {
    hide IsTemp;
    hide SavedName;
  }

  lemma FailedPartFails(t: Tree, script: seq<Op>, ran: seq<Op>)
    requires ran <= script && !Run(Disk(t, true), ran).ok
    ensures !Run(Disk(t, true), script).ok
  {
    assert script == ran + script[|ran|..];
    RunConcat(Disk(t, true), ran, script[|ran|..]);
    RunAfterError(Run(Disk(t, true), ran), script[|ran|..]);
  }

  lemma CommitRefused(t: Tree, name: string, unique: string, partial: Content)
    requires [PENDING] in t && !(PendingNames(t, name) && Verified(t, name))
    ensures !Run(Disk(t, true), CommitScript(t, name, unique, partial)).ok
  {
    hide Verified;
    RunOne(Disk(t, true), Raise);
  }

  lemma CommitNotBegun(t: Tree, done: Event)
    requires done.Commit? && done.cut == 0
    ensures Next(t, done) == t
  {
    assert UpTo(CommitScript(t, done.name, done.unique, done.partial), 0) == [];
  }

  lemma CommitResult(t: Tree, name: string, unique: string, partial: Content)
    requires Run(Disk(t, true), WriteMarker(READY, name, unique, partial) + [Unlink([PENDING])]).ok
    ensures var u := Run(Disk(t, true), WriteMarker(READY, name, unique, partial) + [Unlink([PENDING])]).tree;
      ReadySet(u) && [PENDING] !in u
  {
    hide Run;
    var d := Run(Disk(t, true), WriteMarker(READY, name, unique, partial));
    TempIsTemp(READY, unique);
    AtomicJsonRuns(t, [READY], [TempOf(READY, unique)], partial, Marker(name));
    RunConcat(Disk(t, true), WriteMarker(READY, name, unique, partial), [Unlink([PENDING])]);
    RunOne(d, Unlink([PENDING]));
    if !d.ok {
      RunAfterError(d, [Unlink([PENDING])]);
    }
  }
}
