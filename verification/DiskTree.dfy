// A directory tree and the disk operations of the migration guard
// (backup/preupgrade_guard.py). A disk operation is the unit of interruption.

module DiskTree {
  import opened Options

  // Paths are relative to the configuration root.
  type Path = seq<string>

  // What a file holds. Digests are taken to identify contents, so a manifest
  // entry (size and SHA-256) stands for the content itself. A database holds
  // its commits up to one, a write-ahead log those up to a later one; a
  // database that is not sound fails the integrity check.
  datatype Content =
    | Bytes(data: seq<bv8>)
    | Manifest(files: map<Path, Content>)
    | Marker(name: string)
    | Database(commit: nat, sound: bool)
    | Log(commit: nat)

  // Other: a symbolic link, socket or device.
  datatype Entry = File(content: Content) | Dir | Other

  type Tree = map<Path, Entry>

  // Every entry lies in a directory.
  ghost predicate WellFormed(t: Tree)
  {
    forall p :: p in t ==> p != [] && HasParent(t, p)
  }

  predicate HasParent(t: Tree, p: Path)
  {
    |p| <= 1 || (p[..|p| - 1] in t && t[p[..|p| - 1]].Dir?)
  }

  predicate IsEmptyDir(t: Tree, p: Path)
  {
    forall q :: q in t ==> |q| <= |p| || q[..|p|] != p
  }

  const PENDING := ".v2-m7-upgrade-pending.json"
  const READY := ".v2-m7-schema-ready.json"
  const BACKUP_DIR := ".upgrade-backups"

  // What a rollback leaves alone while it clears the tree.
  predicate Protected(p: Path)
  {
    p == [PENDING] || (p != [] && p[0] == BACKUP_DIR)
  }

  // ---------- Databases ----------

  predicate StartsWith(s: string, prefix: string) { |s| >= |prefix| && s[..|prefix|] == prefix }

  predicate EndsWith(s: string, suffix: string) { |s| >= |suffix| && s[|s| - |suffix|..] == suffix }

  // A name that is nothing but a suffix has no suffix.
  predicate HasSuffix(name: string, suffix: string) { |name| > |suffix| && EndsWith(name, suffix) }

  predicate IsDatabase(p: Path)
  {
    && p != []
    && var last := p[|p| - 1];
    HasSuffix(last, ".db") || HasSuffix(last, ".sqlite") || HasSuffix(last, ".sqlite3")
  }

  function LogPath(p: Path): Path
    requires p != []
  {
    p[..|p| - 1] + [p[|p| - 1] + "-wal"]
  }

  predicate HasLog(t: Tree, p: Path)
    requires p != []
  {
    LogPath(p) in t && t[LogPath(p)].File? && t[LogPath(p)].content.Log?
  }

  // What a database holds together with its log.
  function WithLog(t: Tree, p: Path, commit: nat): Content
    requires p != []
  {
    var longer := HasLog(t, p) && t[LogPath(p)].content.commit > commit;
    Database(if longer then t[LogPath(p)].content.commit else commit, true)
  }

  // What a backup stores of a file: its content or, of a sound database, one
  // with the commits of its log. None: the copy fails. An empty file is a
  // database without tables.
  function Captured(t: Tree, p: Path): Option<Content>
  {
    if p == [] || p !in t || !t[p].File? then None
    else if !IsDatabase(p) then Some(t[p].content)
    else
      match t[p].content
      case Database(commit, sound) => if sound then Some(WithLog(t, p, commit)) else None
      case Bytes(data) => if data == [] then Some(t[p].content) else None
      case _ => None
  }

  // ---------- Backups ----------

  function SnapshotRoot(name: string): Path { [BACKUP_DIR, name, "snapshot"] }

  function At(name: string, rel: Path): Path { SnapshotRoot(name) + rel }

  function ManifestPath(name: string): Path { [BACKUP_DIR, name, "manifest.json"] }

  predicate IsSoundDatabase(c: Content) { if c.Database? then c.sound else c == Bytes([]) }

  predicate HoldsEntry(t: Tree, name: string, rel: Path, c: Content)
  {
    && rel != [] && ".." !in rel && At(name, rel) in t && t[At(name, rel)] == File(c)
    && (IsDatabase(rel) ==> IsSoundDatabase(c))
  }

  // The manifest lists exactly the snapshot's files, with their contents, and
  // the databases among them are sound.
  ghost predicate Verified(t: Tree, name: string)
  {
    && ManifestPath(name) in t && t[ManifestPath(name)].File? && t[ManifestPath(name)].content.Manifest?
    && var files := t[ManifestPath(name)].content.files;
    && (forall rel :: rel in files ==> HoldsEntry(t, name, rel, files[rel]))
    && (forall rel :: At(name, rel) in t && t[At(name, rel)].File? ==> rel in files)
  }

  // One disk operation: the clearing of one listed path by a rollback, a
  // directory that may or may not exist already, the contents of a file, an
  // exclusive creation, a replacing rename, a deletion, the verification of a
  // backup, and an error found by looking.
  datatype Op =
    | Clear(path: Path)
    | EnsureDir(path: Path)
    | MakeDir(path: Path)
    | Put(path: Path, content: Content)
    | Create(path: Path, content: Content)
    | Rename(from: Path, path: Path)
    | Unlink(path: Path)
    | Check(name: string)
    | Raise

  // `ok` is false once an operation raised an error; nothing runs after it.
  datatype Disk = Disk(tree: Tree, ok: bool)

  function Written(t: Tree, p: Path, e: Entry): Disk
  {
    if p != [] && HasParent(t, p) then Disk(t[p := e], true) else Disk(t, false)
  }

  ghost function Apply(d: Disk, op: Op): Disk
  {
    var t := d.tree;
    var raised := Disk(t, false);
    if !d.ok then d
    else
      match op
      case Clear(p) =>
        if Protected(p) then d
        else if p !in t then raised
        else (match t[p]
              case File(_) => Disk(t - {p}, true)
              case Dir => if IsEmptyDir(t, p) then Disk(t - {p}, true) else d
              case Other => raised)
      case EnsureDir(p) => if p !in t then Written(t, p, Dir) else if t[p].Dir? then d else raised
      case MakeDir(p) => if p !in t then Written(t, p, Dir) else raised
      case Put(p, c) => if p !in t || t[p].File? then Written(t, p, File(c)) else raised
      case Create(p, c) => if p !in t then Written(t, p, File(c)) else raised
      case Rename(a, p) =>
        if a in t && t[a].File? && a != p && (p !in t || t[p].File?) && p != [] && HasParent(t, p)
        then Disk((t - {a})[p := t[a]], true) else raised
      case Unlink(p) => if p in t && t[p].File? then Disk(t - {p}, true) else raised
      case Check(name) => if Verified(t, name) then d else raised
      case Raise => raised
  }

  ghost function Run(d: Disk, ops: seq<Op>): Disk
  {
    if ops == [] then d else Apply(Run(d, ops[..|ops| - 1]), ops[|ops| - 1])
  }

  lemma {:induction false} RunConcat(d: Disk, a: seq<Op>, b: seq<Op>)
    ensures Run(d, a + b) == Run(Run(d, a), b)
  {
    if b == [] {
      assert a + b == a;
    } else {
      RunConcat(d, a, b[..|b| - 1]);
      assert (a + b)[..|a + b| - 1] == a + b[..|b| - 1];
    }
  }

  lemma {:induction false} RunAfterError(d: Disk, ops: seq<Op>)
    requires !d.ok
    ensures Run(d, ops) == d
  {
    if ops != [] {
      RunAfterError(d, ops[..|ops| - 1]);
    }
  }

  // ---------- What an operation may change ----------

  predicate Touches(op: Op, q: Path)
  {
    match op
    case Clear(p) => q == p && !Protected(p)
    case Rename(a, p) => q == a || q == p
    case Check(_) => false
    case Raise => false
    case _ => q == op.path
  }

  predicate SameAt(t: Tree, u: Tree, q: Path)
  {
    (q in t <==> q in u) && (q in t ==> t[q] == u[q])
  }

  lemma {:induction false} RunFrame(d: Disk, ops: seq<Op>, q: Path)
    requires forall i :: 0 <= i < |ops| ==> !Touches(ops[i], q)
    ensures SameAt(d.tree, Run(d, ops).tree, q)
  {
    if ops != [] {
      RunFrame(d, ops[..|ops| - 1], q);
      assert !Touches(ops[|ops| - 1], q);
    }
  }

  lemma AddKeepsWellFormed(t: Tree, p: Path, e: Entry)
    requires WellFormed(t) && p != [] && HasParent(t, p) && (p in t && t[p].Dir? ==> e.Dir?)
    ensures WellFormed(t[p := e])
  {
    var u := t[p := e];
    forall q | q in u ensures q != [] && HasParent(u, q) {
      if q != p {
        assert HasParent(t, q);
      }
    }
  }

  lemma RemoveKeepsWellFormed(t: Tree, p: Path)
    requires WellFormed(t) && p in t && (t[p].Dir? ==> IsEmptyDir(t, p))
    ensures WellFormed(t - {p})
  {
    var u := t - {p};
    forall q | q in u ensures q != [] && HasParent(u, q) {
      assert HasParent(t, q);
    }
  }

  lemma ApplyKeepsWellFormed(d: Disk, op: Op)
    requires WellFormed(d.tree)
    ensures WellFormed(Apply(d, op).tree)
  {
    hide WellFormed;
    hide IsEmptyDir;
    hide HasParent;
    var t, u := d.tree, Apply(d, op).tree;
    if u != t {
      match op
      case Clear(p) => RemoveKeepsWellFormed(t, p);
      case EnsureDir(p) => AddKeepsWellFormed(t, p, Dir);
      case MakeDir(p) => AddKeepsWellFormed(t, p, Dir);
      case Put(p, c) => AddKeepsWellFormed(t, p, File(c));
      case Create(p, c) => AddKeepsWellFormed(t, p, File(c));
      case Rename(a, p) =>
        AddKeepsWellFormed(t, p, t[a]);
        RemoveKeepsWellFormed(t[p := t[a]], a);
        assert (t - {a})[p := t[a]] == t[p := t[a]] - {a};
      case Unlink(p) => RemoveKeepsWellFormed(t, p);
    }
  }

  lemma {:induction false} RunKeepsWellFormed(d: Disk, ops: seq<Op>)
    requires WellFormed(d.tree)
    ensures WellFormed(Run(d, ops).tree)
  {
    if ops != [] {
      RunKeepsWellFormed(d, ops[..|ops| - 1]);
      ApplyKeepsWellFormed(Run(d, ops[..|ops| - 1]), ops[|ops| - 1]);
    }
  }

  // All ancestors of an entry are directories.
  lemma {:induction false} AncestorsAreDirs(t: Tree, p: Path, n: nat)
    requires WellFormed(t) && p in t && 0 < n < |p|
    ensures p[..n] in t && t[p[..n]].Dir?
    decreases |p|
  {
    var parent := p[..|p| - 1];
    assert HasParent(t, p);
    if n < |p| - 1 {
      AncestorsAreDirs(t, parent, n);
      assert parent[..n] == p[..n];
    }
  }
}
