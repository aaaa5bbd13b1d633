// The maintenance thread's two loops: the retention sweep and the crash-safe
// migration of one segment (nvr/nvr_service.py).

// ---------- Retention ----------

module Retention {
  datatype Row = Row(camera: string, size: nat, endMs: int)
  datatype CameraPolicy = CameraPolicy(maxAgeMs: int, maxBytes: int)
  datatype Policy = Policy(maxBytes: int, cameras: map<string, CameraPolicy>)

  // What the sweep meets at one row: whether it is in use at the first look,
  // how the second look under reader_lock ends, and the disk pressure
  // measured after a deletion. All of it is up to the other threads.
  datatype Second = Skipped | Unresolved | Removed
  datatype Seen = Seen(active: bool, second: Second, pressure: bool)

  datatype Fate = Active | Unconfigured | WithinBudget | Protected | Unresolvable | Deleted
  datatype Reason = Reason(expired: bool, cameraOver: bool, globalOver: bool, pressure: bool) {
    predicate Any() { expired || cameraOver || globalOver || pressure }
  }

  // Bytes of the rows that a prefix of fates has not deleted; the first form
  // over all rows, the second over one camera's.
  function Remaining(rows: seq<Row>, fates: seq<Fate>): nat
  {
    if rows == [] then 0
    else
      var n := |rows| - 1;
      Remaining(rows[..n], fates) + if n < |fates| && fates[n] == Deleted then 0 else rows[n].size
  }

  function CameraRows(rows: seq<Row>, camera: string): seq<Row>
  {
    seq(|rows|, i requires 0 <= i < |rows| => if rows[i].camera == camera then rows[i] else rows[i].(size := 0))
  }

  function CameraRemaining(rows: seq<Row>, fates: seq<Fate>, camera: string): nat
  {
    Remaining(CameraRows(rows, camera), fates)
  }

  function PressureBefore(fates: seq<Fate>, seen: seq<Seen>, first: bool): bool
    requires |fates| <= |seen|
  {
    if fates == [] then first
    else
      var n := |fates| - 1;
      if fates[n] == Deleted then seen[n].pressure else PressureBefore(fates[..n], seen, first)
  }

  // Why row `i` may go, given the fates of the rows before it.
  function ReasonFor(rows: seq<Row>, policy: Policy, now: int, seen: seq<Seen>, first: bool, before: seq<Fate>): Reason
    requires |before| < |rows| <= |seen| && rows[|before|].camera in policy.cameras
  {
    var row := rows[|before|];
    var c := policy.cameras[row.camera];
    Reason(row.endMs < now - c.maxAgeMs,
           c.maxBytes > 0 && CameraRemaining(rows, before, row.camera) > c.maxBytes,
           policy.maxBytes > 0 && Remaining(rows, before) > policy.maxBytes,
           PressureBefore(before, seen, first))
  }

  function FateOf(rows: seq<Row>, policy: Policy, now: int, seen: seq<Seen>, first: bool, before: seq<Fate>): Fate
    requires |before| < |rows| <= |seen|
  {
    var i := |before|;
    if seen[i].active then Active
    else if rows[i].camera !in policy.cameras then Unconfigured
    else if !ReasonFor(rows, policy, now, seen, first, before).Any() then WithinBudget
    else match seen[i].second
      case Skipped => Protected
      case Unresolved => Unresolvable
      case Removed => Deleted
  }

  ghost predicate IsSweep(rows: seq<Row>, policy: Policy, now: int, seen: seq<Seen>, first: bool, fates: seq<Fate>)
  {
    && |fates| <= |rows| <= |seen|
    && forall i :: 0 <= i < |fates| ==> fates[i] == FateOf(rows, policy, now, seen, first, fates[..i])
  }

  lemma {:induction false} RemainingPrefix(rows: seq<Row>, fates: seq<Fate>, n: nat)
    requires n < |fates| <= |rows|
    ensures Remaining(rows, fates[..n + 1])
         == Remaining(rows, fates[..n]) - if fates[n] == Deleted then rows[n].size else 0
  {
    var m := |rows| - 1;
    if m == n {
      RemainingAgrees(rows[..m], fates[..n + 1], fates[..n]);
    } else {
      var cut := if |fates| <= m then fates else fates[..m];
      assert cut[..n + 1] == fates[..n + 1] && cut[..n] == fates[..n];
      RemainingPrefix(rows[..m], cut, n);
    }
  }

  lemma {:induction false} RemainingAgrees(rows: seq<Row>, a: seq<Fate>, b: seq<Fate>)
    requires |rows| <= |a| && |rows| <= |b| && forall i :: 0 <= i < |rows| ==> a[i] == b[i]
    ensures Remaining(rows, a) == Remaining(rows, b)
  {
    if rows != [] {
      RemainingAgrees(rows[..|rows| - 1], a, b);
    }
  }

  lemma {:induction false} RemainingShrinks(rows: seq<Row>, fates: seq<Fate>, n: nat, m: nat)
    requires n <= m <= |fates| <= |rows|
    ensures Remaining(rows, fates[..m]) <= Remaining(rows, fates[..n])
    decreases m
  {
    if n < m {
      RemainingPrefix(rows, fates, m - 1);
      RemainingShrinks(rows, fates, n, m - 1);
    }
  }

  // A row taken for the global budget implies that no earlier row was left
  // within budget: every older eligible row is gone already.
  lemma GlobalBudgetTakesOldestFirst(rows: seq<Row>, policy: Policy, now: int, seen: seq<Seen>, first: bool,
                                     fates: seq<Fate>, i: nat, j: nat)
    requires IsSweep(rows, policy, now, seen, first, fates) && j < i < |fates|
    requires policy.maxBytes > 0 && Remaining(rows, fates[..i]) > policy.maxBytes
    ensures fates[j] != WithinBudget
  {
    RemainingShrinks(rows, fates, j, i);
    assert fates[j] == FateOf(rows, policy, now, seen, first, fates[..j]);
  }

  // The same per camera.
  lemma CameraBudgetTakesOldestFirst(rows: seq<Row>, policy: Policy, now: int, seen: seq<Seen>, first: bool,
                                     fates: seq<Fate>, i: nat, j: nat, camera: string)
    requires IsSweep(rows, policy, now, seen, first, fates) && j < i < |fates|
    requires rows[j].camera == camera && camera in policy.cameras && policy.cameras[camera].maxBytes > 0
    requires CameraRemaining(rows, fates[..i], camera) > policy.cameras[camera].maxBytes
    ensures fates[j] != WithinBudget
  {
    RemainingShrinks(CameraRows(rows, camera), fates, j, i);
    assert fates[j] == FateOf(rows, policy, now, seen, first, fates[..j]);
  }

  // If a budget is still exceeded when the sweep ends, there was nothing
  // left to take: every row was deleted, in use or locked, unresolvable, or
  // of an unconfigured camera.
  lemma BudgetExceededOnlyByProtectedRows(rows: seq<Row>, policy: Policy, now: int, seen: seq<Seen>, first: bool,
                                          fates: seq<Fate>, j: nat)
    requires IsSweep(rows, policy, now, seen, first, fates) && j < |fates| == |rows|
    requires (policy.maxBytes > 0 && Remaining(rows, fates) > policy.maxBytes)
          || (rows[j].camera in policy.cameras && policy.cameras[rows[j].camera].maxBytes > 0
              && CameraRemaining(rows, fates, rows[j].camera) > policy.cameras[rows[j].camera].maxBytes)
    ensures fates[j] != WithinBudget
  {
    assert fates[..|fates|] == fates;
    RemainingShrinks(rows, fates, j, |fates|);
    RemainingShrinks(CameraRows(rows, rows[j].camera), fates, j, |fates|);
    assert fates[j] == FateOf(rows, policy, now, seen, first, fates[..j]);
  }

  // Conversely nothing is deleted without a reason: a deleted row was
  // expired, or a budget was exceeded, or the disk was under pressure.
  lemma DeletionsHaveReasons(rows: seq<Row>, policy: Policy, now: int, seen: seq<Seen>, first: bool,
                             fates: seq<Fate>, i: nat)
    requires IsSweep(rows, policy, now, seen, first, fates) && i < |fates| && fates[i] == Deleted
    ensures rows[i].camera in policy.cameras
         && ReasonFor(rows, policy, now, seen, first, fates[..i]).Any() && !seen[i].active
  {
    assert fates[i] == FateOf(rows, policy, now, seen, first, fates[..i]);
  }

  // The pressure at a row is the one measured after the last deletion before
  // it, or the first measurement when nothing was deleted yet.
  lemma {:induction false} PressureIs(fates: seq<Fate>, seen: seq<Seen>, first: bool, j: nat)
    requires j < |fates| <= |seen| && fates[j] == Deleted && forall k :: j < k < |fates| ==> fates[k] != Deleted
    ensures PressureBefore(fates, seen, first) == seen[j].pressure
  {
    if j < |fates| - 1 {
      PressureIs(fates[..|fates| - 1], seen, first, j);
    }
  }

  lemma {:induction false} PressureIsFirst(fates: seq<Fate>, seen: seq<Seen>, first: bool)
    requires |fates| <= |seen| && forall k :: 0 <= k < |fates| ==> fates[k] != Deleted
    ensures PressureBefore(fates, seen, first) == first
  {
    if fates != [] {
      PressureIsFirst(fates[..|fates| - 1], seen, first);
    }
  }

  // When a row is spared by the rule: it is young enough, neither budget is
  // exceeded when its turn comes, and the disk is not under pressure.
  predicate Spared(rows: seq<Row>, policy: Policy, now: int, before: seq<Fate>, pressure: bool)
    requires |before| < |rows| && rows[|before|].camera in policy.cameras
  {
    var row := rows[|before|];
    && row.endMs >= now - policy.cameras[row.camera].maxAgeMs
    && (policy.cameras[row.camera].maxBytes <= 0
        || CameraRemaining(rows, before, row.camera) <= policy.cameras[row.camera].maxBytes)
    && (policy.maxBytes <= 0 || Remaining(rows, before) <= policy.maxBytes)
    && !pressure
  }

  // What happens to every row, with the rule written out.
  ghost predicate FollowsRule(rows: seq<Row>, policy: Policy, now: int, seen: seq<Seen>, first: bool, fates: seq<Fate>)
    requires |fates| <= |rows| <= |seen|
  {
    forall i :: 0 <= i < |fates| ==>
      var row := rows[i];
      && (fates[i] == Active <==> seen[i].active)
      && (fates[i] == Unconfigured <==> !seen[i].active && row.camera !in policy.cameras)
      && (!seen[i].active && row.camera in policy.cameras ==>
            var spared := Spared(rows, policy, now, fates[..i], PressureBefore(fates[..i], seen, first));
            && (fates[i] == WithinBudget <==> spared)
            && (fates[i] == Protected <==> !spared && seen[i].second == Skipped)
            && (fates[i] == Unresolvable <==> !spared && seen[i].second == Unresolved)
            && (fates[i] == Deleted <==> !spared && seen[i].second == Removed))
  }

  lemma SweepFollowsRule(rows: seq<Row>, policy: Policy, now: int, seen: seq<Seen>, first: bool, fates: seq<Fate>)
    requires IsSweep(rows, policy, now, seen, first, fates)
    ensures FollowsRule(rows, policy, now, seen, first, fates)
  {
    hide Remaining; hide CameraRemaining; hide PressureBefore;
    forall i | 0 <= i < |fates| ensures fates[i] == FateOf(rows, policy, now, seen, first, fates[..i]) {
    }
  }

  // An expired row that nobody uses goes; a row that goes while both budgets
  // are kept and the disk is not under pressure had expired.
  lemma ExpiredRowsGo(rows: seq<Row>, policy: Policy, now: int, seen: seq<Seen>, first: bool, fates: seq<Fate>, i: nat)
    requires IsSweep(rows, policy, now, seen, first, fates) && i < |fates|
    requires !seen[i].active && rows[i].camera in policy.cameras
    requires rows[i].endMs < now - policy.cameras[rows[i].camera].maxAgeMs
    ensures fates[i] != WithinBudget && (seen[i].second == Removed ==> fates[i] == Deleted)
  {
    SweepFollowsRule(rows, policy, now, seen, first, fates);
  }

  lemma OnlyExpiredRowsGo(rows: seq<Row>, policy: Policy, now: int, seen: seq<Seen>, first: bool, fates: seq<Fate>,
                          i: nat)
    requires IsSweep(rows, policy, now, seen, first, fates) && i < |fates| && fates[i] == Deleted
    requires rows[i].camera in policy.cameras
    requires policy.maxBytes <= 0 || Remaining(rows, fates[..i]) <= policy.maxBytes
    requires policy.cameras[rows[i].camera].maxBytes <= 0
          || CameraRemaining(rows, fates[..i], rows[i].camera) <= policy.cameras[rows[i].camera].maxBytes
    requires !PressureBefore(fates[..i], seen, first)
    ensures rows[i].endMs < now - policy.cameras[rows[i].camera].maxAgeMs
  {
    SweepFollowsRule(rows, policy, now, seen, first, fates);
  }

  method SumSizes(rows: seq<Row>) returns (total: nat)
    ensures total == Remaining(rows, [])
  {
    total := 0;
    for i := 0 to |rows|
      invariant total == Remaining(rows[..i], [])
    {
      assert rows[..i + 1][..i] == rows[..i];
      total := total + rows[i].size;
    }
    assert rows[..|rows|] == rows;
  }

  lemma NothingRemains()
    ensures Remaining([], []) == 0
    ensures forall c :: CameraRemaining([], [], c) == 0
  {
  }

  lemma OneMoreRow(rows: seq<Row>, i: nat, camera: string)
    requires i < |rows|
    ensures Remaining(rows[..i + 1], []) == Remaining(rows[..i], []) + rows[i].size
    ensures CameraRemaining(rows[..i + 1], [], camera)
         == CameraRemaining(rows[..i], [], camera) + if rows[i].camera == camera then rows[i].size else 0
  {
    assert rows[..i + 1][..i] == rows[..i];
    assert CameraRows(rows[..i + 1], camera)[..i] == CameraRows(rows[..i], camera);
  }

  method SumByCamera(rows: seq<Row>) returns (totals: map<string, nat>)
    ensures forall c :: (exists i :: 0 <= i < |rows| && rows[i].camera == c) ==> c in totals
    ensures forall c :: c in totals ==> totals[c] == CameraRemaining(rows, [], c)
  {
    hide CameraRemaining;
    totals := map[];
    NothingRemains();
    assert rows[..0] == [];
    for i := 0 to |rows|
      invariant forall c :: (exists k :: 0 <= k < i && rows[k].camera == c) <==> c in totals
      invariant forall c :: CameraRemaining(rows[..i], [], c) == if c in totals then totals[c] else 0
    {
      var camera := rows[i].camera;
      forall c
        ensures CameraRemaining(rows[..i + 1], [], c)
             == CameraRemaining(rows[..i], [], c) + if c == camera then rows[i].size else 0
      {
        OneMoreRow(rows, i, c);
      }
      totals := totals[camera := (if camera in totals then totals[camera] else 0) + rows[i].size];
    }
    assert rows[..|rows|] == rows;
  }

  // The decision at one row, from the running totals.
  method Decide(rows: seq<Row>, policy: Policy, now: int, ghost first: bool, seen: seq<Seen>, ghost fates: seq<Fate>,
                i: nat, total: nat, cameraTotals: map<string, nat>, pressure: bool)
    returns (fate: Fate)
    requires i == |fates| < |rows| == |seen| && rows[i].camera in cameraTotals
    requires total == Remaining(rows, fates) && pressure == PressureBefore(fates, seen, first)
    requires cameraTotals[rows[i].camera] == CameraRemaining(rows, fates, rows[i].camera)
    ensures fate == FateOf(rows, policy, now, seen, first, fates)
    ensures !seen[i].active && rows[i].camera in policy.cameras ==>
      (fate == WithinBudget <==> Spared(rows, policy, now, fates, pressure))
  {
    hide Remaining; hide CameraRemaining; hide PressureBefore;
    var row := rows[i];
    if seen[i].active {
      return Active;
    }
    if row.camera !in policy.cameras {
      return Unconfigured;
    }
    var camera := policy.cameras[row.camera];
    var expired := row.endMs < now - camera.maxAgeMs;
    var cameraOver := camera.maxBytes > 0 && cameraTotals[row.camera] > camera.maxBytes;
    var globalOver := policy.maxBytes > 0 && total > policy.maxBytes;
    if !(expired || cameraOver || globalOver || pressure) {
      return WithinBudget;
    }
    match seen[i].second
    case Skipped => return Protected;
    case Unresolved => return Unresolvable;
    case Removed => return Deleted;
  }

  // The effect of one more fate on every running total.
  lemma OneMoreFate(rows: seq<Row>, fates: seq<Fate>, fate: Fate)
    requires |fates| < |rows|
    ensures var row := rows[|fates|];
      && Remaining(rows, fates + [fate]) == Remaining(rows, fates) - (if fate == Deleted then row.size else 0)
      && forall c :: CameraRemaining(rows, fates + [fate], c)
                  == CameraRemaining(rows, fates, c) - if fate == Deleted && c == row.camera then row.size else 0
  {
    var n := |fates|;
    var longer := fates + [fate];
    assert longer[..n] == fates && longer[..n + 1] == longer;
    RemainingPrefix(rows, longer, n);
    forall c
      ensures CameraRemaining(rows, longer, c)
           == CameraRemaining(rows, fates, c) - if fate == Deleted && c == rows[n].camera then rows[n].size else 0
    {
      RemainingPrefix(CameraRows(rows, c), longer, n);
    }
  }

  // The loop of apply_retention. The returned totals are its running
  // variables at the end.
  method Sweep(rows: seq<Row>, policy: Policy, now: int, first: bool, seen: seq<Seen>)
    returns (fates: seq<Fate>, total: nat, cameraTotals: map<string, nat>, pressure: bool)
    requires |seen| == |rows|
    ensures IsSweep(rows, policy, now, seen, first, fates) && |fates| == |rows|
    ensures FollowsRule(rows, policy, now, seen, first, fates)
    ensures total == Remaining(rows, fates)
    ensures forall c :: c in cameraTotals ==> cameraTotals[c] == CameraRemaining(rows, fates, c)
    ensures pressure == PressureBefore(fates, seen, first)
  {
    hide Remaining; hide CameraRemaining; hide IsSweep; hide FateOf; hide FollowsRule;
    fates, pressure := [], first;
    total := SumSizes(rows);
    cameraTotals := SumByCamera(rows);
    NoSweep(rows, policy, now, seen, first);
    for i := 0 to |rows|
      invariant i == |fates|
      invariant forall k :: 0 <= k < |rows| ==> rows[k].camera in cameraTotals
      invariant IsSweep(rows, policy, now, seen, first, fates)
      invariant total == Remaining(rows, fates)
      invariant forall c :: c in cameraTotals ==> cameraTotals[c] == CameraRemaining(rows, fates, c)
      invariant pressure == PressureBefore(fates, seen, first)
    {
      var fate := Decide(rows, policy, now, first, seen, fates, i, total, cameraTotals, pressure);
      SweepGrows(rows, policy, now, seen, first, fates, fate);
      OneMoreFate(rows, fates, fate);
      if fate == Deleted {
        total := total - rows[i].size;
        cameraTotals := cameraTotals[rows[i].camera := cameraTotals[rows[i].camera] - rows[i].size];
        pressure := seen[i].pressure;
      }
      assert (fates + [fate])[..i] == fates;
      fates := fates + [fate];
    }
    SweepFollowsRule(rows, policy, now, seen, first, fates);
  }

  lemma NoSweep(rows: seq<Row>, policy: Policy, now: int, seen: seq<Seen>, first: bool)
    requires |rows| <= |seen|
    ensures IsSweep(rows, policy, now, seen, first, []) && PressureBefore([], seen, first) == first
  {
  }

  lemma SweepGrows(rows: seq<Row>, policy: Policy, now: int, seen: seq<Seen>, first: bool, fates: seq<Fate>, fate: Fate)
    requires IsSweep(rows, policy, now, seen, first, fates) && |fates| < |rows|
    requires fate == FateOf(rows, policy, now, seen, first, fates)
    ensures IsSweep(rows, policy, now, seen, first, fates + [fate])
  {
    var longer := fates + [fate];
    forall i | 0 <= i < |longer| ensures longer[i] == FateOf(rows, policy, now, seen, first, longer[..i]) {
      assert longer[..i] == fates[..i];
      if i == |fates| {
        assert fates[..i] == fates;
      }
    }
  }
}

// ---------- Migration ----------

module Migration {
  import opened Segments
  import opened Options

  // The disk and the segment's catalog row, as a crash would leave them.
  // `temps` holds the hidden partial copies beside a place.
  datatype Disk = Disk(files: Files, temps: Files, row: Segment)

  // What the operating system answers: whether the copy, the replacement
  // and the unlink succeed, and what a copy actually wrote.
  datatype Answers = Answers(copies: bool, written: File, renames: bool, unlinks: bool)

  function Failing(d: Disk): Disk { d.(row := d.row.(integrity := MigrationFailed)) }

  function Copied(d: Disk, to: Place, a: Answers): Disk { d.(temps := d.temps[to := a.written]) }

  function Cleaned(d: Disk, to: Place): Disk { d.(temps := d.temps - {to}) }

  function Replaced(d: Disk, to: Place): Disk
  {
    if to in d.temps then d.(files := d.files[to := d.temps[to]], temps := d.temps - {to}) else d
  }

  function Repointed(d: Disk, to: Place, digest: Digest): Disk
  {
    d.(row := d.row.(place := to, sha := Some(digest)))
  }

  function Unlinked(d: Disk, from: Place): Disk { d.(files := d.files - {from}) }

  predicate Accepts(d: Disk, a: Answers)
    requires d.row.place in d.files
  {
    a.copies && Verifies(d.row, d.files[d.row.place], a.written) && a.renames
  }

  // The states after each elementary write of one attempt: copy, replace,
  // repoint the row, unlink the source. A failure removes the partial copy
  // and marks the row.
  function Trail(d: Disk, target: string, a: Answers): seq<Disk>
  {
    var from := d.row.place;
    var to := Place(target, from.key);
    if from !in d.files then [Failing(d)]
    else
      var c := Copied(d, to, a);
      if !Accepts(d, a) then [c, Cleaned(c, to), Failing(Cleaned(c, to))]
      else
        var r := Replaced(c, to);
        var p := Repointed(r, to, a.written.digest);
        [c, r, p] + if a.unlinks then [Unlinked(p, from)] else []
  }

  // The row names a file with this digest and the row's size; a digest the
  // row already records agrees.
  predicate Backed(d: Disk, digest: Digest)
  {
    && d.row.place in d.files
    && d.files[d.row.place] == File(d.row.size, digest)
    && (d.row.sha.Some? ==> d.row.sha.value == digest)
  }

  // At every moment of an attempt the row names a complete copy of the same
  // content, and the source is gone only once the row points elsewhere.
  lemma EveryMomentIsBacked(d: Disk, target: string, a: Answers, i: nat, digest: Digest)
    requires Backed(d, digest) && target != d.row.place.volume && i < |Trail(d, target, a)|
    ensures var m := Trail(d, target, a)[i];
      && Backed(m, digest) && m.row.size == d.row.size && m.row.place.key == d.row.place.key
      && (d.row.place !in m.files ==> m.row.place == Place(target, d.row.place.key))
  {
  }

  // No other segment's file is touched.
  lemma OthersUntouched(d: Disk, target: string, a: Answers, i: nat, p: Place)
    requires i < |Trail(d, target, a)| && p.key != d.row.place.key
    ensures var m := Trail(d, target, a)[i];
      (p in m.files <==> p in d.files) && (p in d.files ==> m.files[p] == d.files[p])
  {
  }

  // One attempt to a target, cut by a crash after `cut` writes.
  datatype Attempt = Attempt(target: string, answers: Answers, cut: nat)

  function Crashed(d: Disk, t: Attempt): Disk
  {
    if t.target == d.row.place.volume || t.cut == 0 || t.cut > |Trail(d, t.target, t.answers)| then d
    else Trail(d, t.target, t.answers)[t.cut - 1]
  }

  function AfterCrashes(d: Disk, attempts: seq<Attempt>): Disk
  {
    if attempts == [] then d else Crashed(AfterCrashes(d, attempts[..|attempts| - 1]), attempts[|attempts| - 1])
  }

  // Any number of attempts, each cut anywhere, keep the content.
  lemma {:induction false} CrashesKeepContent(d: Disk, attempts: seq<Attempt>, digest: Digest)
    requires Backed(d, digest)
    ensures Backed(AfterCrashes(d, attempts), digest) && AfterCrashes(d, attempts).row.size == d.row.size
  {
    if attempts != [] {
      var before := attempts[..|attempts| - 1];
      CrashesKeepContent(d, before, digest);
      var m := AfterCrashes(d, before);
      var t := attempts[|attempts| - 1];
      if t.target != m.row.place.volume && 0 < t.cut <= |Trail(m, t.target, t.answers)| {
        EveryMomentIsBacked(m, t.target, t.answers, t.cut - 1, digest);
      }
    }
  }

  // Where an attempt that is not interrupted ends.
  lemma TrailEnd(d: Disk, target: string, a: Answers)
    ensures var trail := Trail(d, target, a); var to := Place(target, d.row.place.key);
      && |trail| > 0
      && var end := trail[|trail| - 1];
      if d.row.place !in d.files || !Accepts(d, a)
      then end.row == d.row.(integrity := MigrationFailed) && end.files == d.files
      else
        && end.row == d.row.(place := to, sha := Some(a.written.digest))
        && end.files == var files := d.files[to := a.written]; if a.unlinks then files - {d.row.place} else files
  {
    hide Accepts;
  }

  // An attempt that is not interrupted moves the segment exactly if the copy
  // and the replacement succeed and what was written has the expected digest
  // and size; otherwise it leaves the files and marks the row. No partial copy
  // stays either way.
  lemma AttemptMeans(d: Disk, target: string, a: Answers)
    ensures var trail := Trail(d, target, a);
      var from, to := d.row.place, Place(target, d.row.place.key);
      && |trail| > 0
      && var end := trail[|trail| - 1];
      if from in d.files && a.copies && a.renames && a.written.size == d.row.size
         && a.written.digest == (if d.row.sha.Some? then d.row.sha.value else d.files[from].digest)
      then end.row == d.row.(place := to, sha := Some(a.written.digest))
           && end.files == d.files[to := a.written] - (if a.unlinks then {from} else {})
           && end.temps == d.temps - {to}
      else end.row == d.row.(integrity := MigrationFailed) && end.files == d.files
           && end.temps == if from in d.files then d.temps - {to} else d.temps
  {
  }

  // With working copies and renames an attempt ends where the single migration
  // step of the concurrent model does.
  lemma AttemptEndsAsMove(s: Nvr, id: SegmentId, target: string, a: Answers)
    requires id in s.rows && s.sweep.None? && !InUse(s, id) && !s.rows[id].locked
    requires target != s.rows[id].place.volume && a.copies && a.renames
    ensures var trail := Trail(Disk(s.files, map[], s.rows[id]), target, a);
      var t := Move(s, id, target, a.written, a.unlinks);
      |trail| > 0 && id in t.rows && trail[|trail| - 1].row == t.rows[id] && trail[|trail| - 1].files == t.files
  {
    hide Trail;
    TrailEnd(Disk(s.files, map[], s.rows[id]), target, a);
  }

  // The trail of each outcome.
  lemma TrailIs(d: Disk, target: string, a: Answers)
    ensures var from, to := d.row.place, Place(target, d.row.place.key);
      if from !in d.files then Trail(d, target, a) == [Failing(d)]
      else
        var c := d.(temps := d.temps[to := a.written]);
        var expected := if d.row.sha.Some? then d.row.sha.value else d.files[from].digest;
        if !a.copies || a.written.digest != expected || a.written.size != d.row.size || !a.renames
        then !Accepts(d, a)
             && Trail(d, target, a) == [c] + [c.(temps := c.temps - {to})] + [Failing(c.(temps := c.temps - {to}))]
        else
          var r := d.(files := d.files[to := a.written], temps := c.temps - {to});
          var p := r.(row := d.row.(place := to, sha := Some(a.written.digest)));
          Accepts(d, a) && Trail(d, target, a)
            == [c] + [r] + [p] + if a.unlinks then [p.(files := p.files - {from})] else []
  {
  }

  class Migrator {
    var files: Files
    var temps: Files
    var row: Segment
    ghost var trail: seq<Disk>

    constructor (files: Files, temps: Files, row: Segment)
      ensures State() == Disk(files, temps, row) && trail == []
    {
      this.files, this.temps, this.row, trail := files, temps, row, [];
    }

    function State(): Disk
      reads this
    {
      Disk(files, temps, row)
    }

    // One attempt of migrate_under_pressure on its chosen row. The trail
    // records the state after every write.
    method Attempt(target: string, a: Answers) returns (moved: bool)
      requires target != row.place.volume
      modifies this
      ensures trail == old(trail) + Trail(old(State()), target, a)
      ensures State() == Trail(old(State()), target, a)[|Trail(old(State()), target, a)| - 1]
      ensures moved <==> old(State()).row.place in old(files) && Accepts(old(State()), a)
    {
      hide Trail; hide Accepts;
      ghost var d := State();
      TrailIs(d, target, a);
      var source := row.place;
      var destination := Place(target, source.key);
      if source !in files {
        row := row.(integrity := MigrationFailed);
        trail := trail + [State()];
        return false;
      }
      temps := temps[destination := a.written];
      ghost var c := State();
      var expected := if row.sha.Some? then row.sha.value else files[source].digest;
      var digest := temps[destination].digest;
      if !a.copies || digest != expected || temps[destination].size != row.size || !a.renames {
        temps := temps - {destination};
        ghost var cleaned := State();
        row := row.(integrity := MigrationFailed);
        trail := trail + ([c] + [cleaned] + [State()]);
        return false;
      }
      files, temps := files[destination := temps[destination]], temps - {destination};
      ghost var replaced := State();
      row := row.(place := destination, sha := Some(digest));
      ghost var pointed := State();
      if a.unlinks {
        files := files - {source};
      }
      trail := trail + ([c] + [replaced] + [pointed] + if a.unlinks then [State()] else []);
      moved := true;
    }
  }
}
