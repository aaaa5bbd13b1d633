// What a preparation saves, a rollback brings back and a commit marks, with
// names and contents written out (backup/preupgrade_guard.py).

module GuardOutcomes {
  import opened DiskTree
  import opened UpgradeGuard
  import opened Options

  // ---------- What is saved ----------

  predicate Ends(name: string, suffix: string) { |name| >= |suffix| && name[|name| - |suffix|..] == suffix }

  // A snapshot has every regular file but the backups, the markers, runtime
  // files of databases and hidden files of the services.
  lemma SavedMeans(t: Tree, p: Path)
    requires p != []
    ensures var last := p[|p| - 1];
      IsSaved(t, p) <==>
        && p in t && t[p].File? && p[0] != ".upgrade-backups" && ".." !in p
        && last != ".v2-m7-upgrade-pending.json" && last != ".v2-m7-schema-ready.json"
        && !Ends(last, "-wal") && !Ends(last, "-shm")
        && !(|last| >= 8 && last[..8] == ".webobs-")
  {
    assert |".webobs-"| == 8;
  }

  // The file beside a database that has its later commits.
  function LogOf(p: Path): Path
    requires p != []
  {
    p[..|p| - 1] + [p[|p| - 1] + "-wal"]
  }

  // A file is stored as it is, but a database with the newest of its own and
  // its log's commits, and not at all when it is not sound.
  lemma CapturedMeans(t: Tree, p: Path)
    requires p != [] && p in t && t[p].File?
    ensures var name := p[|p| - 1];
      var database := (Ends(name, ".db") && |name| > 3) || (Ends(name, ".sqlite") && |name| > 7)
                      || (Ends(name, ".sqlite3") && |name| > 8);
      && (!database ==> Captured(t, p) == Some(t[p].content))
      && (database && t[p].content.Database? ==>
            if !t[p].content.sound then Captured(t, p) == None
            else
              && Captured(t, p).Some? && Captured(t, p).value.Database? && Captured(t, p).value.sound
              && var own, kept := t[p].content.commit, Captured(t, p).value.commit;
              && (kept == own || (LogOf(p) in t && t[LogOf(p)] == File(Log(kept))))
              && kept >= own
              && forall c :: LogOf(p) in t && t[LogOf(p)] == File(Log(c)) ==> kept >= c)
  {
    assert |".db"| == 3 && |".sqlite"| == 7 && |".sqlite3"| == 8;
  }

  // After a complete preparation the snapshot has exactly the saved files, as
  // they are stored, and the files are still in place.
  lemma SnapshotHolds(t: Tree, name: string, unique: string, sources: seq<Path>, junk: Path -> Content, p: Path)
    requires WellFormed(t) && [PENDING] !in t && IsSourceListing(t, sources) && p != [] && !IsTemp(p)
    requires Run(Disk(t, true), PrepareScript(t, name, unique, sources, junk)).ok
    ensures var u := Run(Disk(t, true), PrepareScript(t, name, unique, sources, junk)).tree;
      && [PENDING] in u && u[[PENDING]] == File(Marker(name))
      && (IsSaved(t, p) <==> At(name, p) in u && u[At(name, p)].File?)
      && (IsSaved(t, p) ==> Captured(t, p) == Some(u[At(name, p)].content))
      && (p[0] != BACKUP_DIR && p != [PENDING] ==> SameAt(t, u, p))
  {
    hide Run; hide PrepareScript; hide WellFormed; hide IsTemp; hide SavedName; hide Captured; hide Verified;
    hide Sound;
    OriginIsUnchanged(t);
    PrepareCompletes(t, name, unique, sources, junk, Origin(t));
    var u := Run(Disk(t, true), PrepareScript(t, name, unique, sources, junk)).tree;
    assert OriginAt(u, name, Origin(t), p);
  }

  lemma OriginIsUnchanged(t: Tree)
    ensures Unchanged(t, Origin(t))
  {
    hide IsTemp; hide SavedName; hide Captured;
  }

  // An uninterrupted preparation completes exactly if nothing but files and
  // directories is anywhere in the tree, backups included, every saved file can
  // be stored, and its own names are free.
  lemma PreparationMeans(t: Tree, name: string, unique: string, sources: seq<Path>, junk: Path -> Content)
    requires WellFormed(t) && [PENDING] !in t && IsSourceListing(t, sources)
    ensures Run(Disk(t, true), PrepareScript(t, name, unique, sources, junk)).ok <==>
      && (forall p :: p in t ==> t[p].File? || t[p].Dir?)
      && (forall p :: p in t && IsSaved(t, p) ==> Captured(t, p).Some?)
      && ([".upgrade-backups"] in t ==> t[[".upgrade-backups"]].Dir?)
      && [".upgrade-backups", name] !in t
      && ["..v2-m7-upgrade-pending.json." + unique + ".tmp"] !in t
  {
    hide Run; hide PrepareScript; hide WellFormed; hide IsSaved; hide Captured;
    OriginIsUnchanged(t);
    PrepareCompletes(t, name, unique, sources, junk, Origin(t));
    assert TempOf(PENDING, unique) == "..v2-m7-upgrade-pending.json." + unique + ".tmp" by {
      assert "." + PENDING + "." == "..v2-m7-upgrade-pending.json.";
    }
  }

  // The only saved files that later comparisons leave out are the guard's own
  // temporary files, left by a write that was cut short.
  lemma LeftoversAre(p: Path)
    requires IsTemp(p)
    ensures |p| == 1 && Ends(p[0], ".tmp")
    ensures var a, b := "..v2-m7-upgrade-pending.json.", "..v2-m7-schema-ready.json.";
      (|p[0]| >= |a| && p[0][..|a|] == a) || (|p[0]| >= |b| && p[0][..|b|] == b)
  {
    assert "." + PENDING + "." == "..v2-m7-upgrade-pending.json.";
    assert "." + READY + "." == "..v2-m7-schema-ready.json.";
  }

  // ---------- When a backup is refused ----------

  // Something about the backup is wrong.
  ghost predicate Damaged(t: Tree, name: string)
  {
    || ManifestPath(name) !in t || !t[ManifestPath(name)].File? || !t[ManifestPath(name)].content.Manifest?
    || var files := t[ManifestPath(name)].content.files;
    || (exists rel :: rel in files && (rel == [] || ".." in rel || At(name, rel) !in t
                                       || t[At(name, rel)] != File(files[rel])
                                       || (IsDatabase(rel) && files[rel].Database? && !files[rel].sound)
                                       || (IsDatabase(rel) && !files[rel].Database? && files[rel] != Bytes([]))))
    || exists rel :: At(name, rel) in t && t[At(name, rel)].File? && rel !in files
  }

  lemma VerifiedUnlessDamaged(t: Tree, name: string)
    ensures Verified(t, name) <==> !Damaged(t, name)
  {
    hide IsDatabase;
  }

  // A rollback or commit whose marker or backup is not in order changes
  // nothing at all.
  lemma DamagedIsRefused(t: Tree, name: string, listing: seq<Path>, rels: seq<Path>, junk: Path -> Content,
                         unique: string, partial: Content)
    requires [PENDING] in t && (t[[PENDING]] != File(Marker(name)) || Damaged(t, name))
    ensures Run(Disk(t, true), RollbackScript(t, name, listing, rels, junk)) == Disk(t, false)
    ensures Run(Disk(t, true), CommitScript(t, name, unique, partial)) == Disk(t, false)
  {
    hide Damaged; hide Verified;
    VerifiedUnlessDamaged(t, name);
    RunOne(Disk(t, true), Raise);
  }

  // ---------- Rollback and commit ----------

  // A rollback whose marker and backup are in order: it completes exactly
  // when nothing but files and directories is outside the backups, and then
  // every path outside them is as in the snapshot, the backups are as they
  // were, and the marker is gone.
  lemma RollbackMeans(t: Tree, name: string, listing: seq<Path>, rels: seq<Path>, junk: Path -> Content, q: Path)
    requires WellFormed(t) && [PENDING] in t && t[[PENDING]] == File(Marker(name))
    requires !Damaged(t, name) && Sound(t, name)
    requires IsListing(t, listing) && IsSnapshotListing(t, name, rels) && q != []
    ensures var d := Run(Disk(t, true), RollbackScript(t, name, listing, rels, junk));
      && (d.ok <==> forall p :: p in t && p != [] && p != [PENDING] && p[0] != BACKUP_DIR ==> !t[p].Other?)
      && (d.ok ==>
            if q == [PENDING] then q !in d.tree
            else if q[0] == BACKUP_DIR then SameAt(t, d.tree, q)
            else (q in d.tree <==> [BACKUP_DIR, name, "snapshot"] + q in t)
                 && (q in d.tree ==> d.tree[q] == t[[BACKUP_DIR, name, "snapshot"] + q]))
  {
    hide Run; hide WellFormed; hide Sound; hide IsListing; hide IsSnapshotListing; hide RollbackScript; hide Damaged;
    hide Verified;
    VerifiedUnlessDamaged(t, name);
    RollbackRestores(t, name, listing, rels, junk);
    OthersOutside(t);
  }

  lemma OthersOutside(t: Tree)
    requires WellFormed(t)
    ensures !HasOtherOutside(t) <==>
            forall p :: p in t && p != [] && p != [PENDING] && p[0] != BACKUP_DIR ==> !t[p].Other?
  {
  }

  // A commit completes exactly when the marker names a backup in order and the
  // ready marker can be written; it changes nothing but the two markers.
  lemma CommitMeans(t: Tree, name: string, unique: string, partial: Content)
    requires WellFormed(t) && [PENDING] in t
    ensures var d := Run(Disk(t, true), CommitScript(t, name, unique, partial));
      && (d.ok <==> t[[PENDING]] == File(Marker(name)) && !Damaged(t, name)
                    && [TempOf(READY, unique)] !in t && ([READY] in t ==> t[[READY]].File?))
      && (d.ok ==> d.tree == t[[READY] := File(Marker(name))] - {[PENDING]})
  {
    hide Run; hide Damaged; hide Verified;
    VerifiedUnlessDamaged(t, name);
    if t[[PENDING]] == File(Marker(name)) && !Damaged(t, name) {
      TempIsTemp(READY, unique);
      var write := WriteMarker(READY, name, unique, partial);
      AtomicJsonRuns(t, [READY], [TempOf(READY, unique)], partial, Marker(name));
      RunConcat(Disk(t, true), write, [Unlink([PENDING])]);
      RunOne(Run(Disk(t, true), write), Unlink([PENDING]));
      if !Run(Disk(t, true), write).ok {
        RunAfterError(Run(Disk(t, true), write), [Unlink([PENDING])]);
      }
    } else {
      RunOne(Disk(t, true), Raise);
    }
  }

  // A migration may write anything outside the guard's own files.
  lemma MigrationsAreFree(t: Tree, u: Tree)
    requires [PENDING] in t && WellFormed(u) && SameAt(t, u, [PENDING]) && SameAt(t, u, [READY])
    requires forall q :: q != [] && q[0] == BACKUP_DIR ==> SameAt(t, u, q)
    ensures Next(t, Migrate(u)) == u
  {
  }
}
