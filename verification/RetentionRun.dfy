// The retention sweep on the shared catalog (nvr/nvr_service.py,
// apply_retention): what each row's fate means for its segment while other
// threads read, lock, lease and export.

module RetentionRun {
  import opened Options
  import opened Retention
  import S = Segments

  type Id = S.SegmentId

  // Other threads at one row's turn: what they do before the first look and
  // between the two looks; whether the row's path resolves; and the disk
  // pressure measured after a deletion.
  datatype Turn = Turn(before: seq<S.Step>, between: seq<S.Step>, resolvable: bool, pressure: bool)

  // The maintenance thread is busy with this sweep, and the service does not
  // restart during it.
  predicate ByOthers(steps: seq<S.Step>)
  {
    forall i :: 0 <= i < |steps| ==>
      !steps[i].RetentionStart? && !steps[i].RetentionRemove? && !steps[i].RetentionEnd? && !steps[i].Migrate?
      && !steps[i].Restart?
  }

  ghost predicate TurnsByOthers(turns: seq<Turn>)
  {
    forall i :: 0 <= i < |turns| ==> ByOthers(turns[i].before) && ByOthers(turns[i].between)
  }

  // The snapshot: the unlocked rows that are not deleted or missing, oldest
  // first.
  ghost predicate IsSnapshot(s: S.Nvr, ids: seq<Id>, rows: seq<Row>)
  {
    && s.sweep == Some(s.rows) && |ids| == |rows|
    && (forall id :: id in ids <==> id in s.rows && !s.rows[id].locked && S.Visible(s.rows, id))
    && (forall i, j :: 0 <= i < j < |ids| ==> ids[i] != ids[j] && s.rows[ids[i]].startMs <= s.rows[ids[j]].startMs)
    && forall i :: 0 <= i < |ids| ==> rows[i] == Row(s.rows[ids[i]].camera, s.rows[ids[i]].size, s.rows[ids[i]].endMs)
  }

  // What the second look finds.
  function Look(s: S.Nvr, id: Id, resolvable: bool): Second
  {
    if S.InUse(s, id) || id !in s.rows || s.rows[id].locked || s.rows[id].integrity.Deleted? then Skipped
    else if resolvable then Removed else Unresolved
  }

  predicate TakesSecondLook(fate: Fate) { fate.Protected? || fate.Unresolvable? || fate == Fate.Deleted }

  // The catalog at the first look at row i, at its second look, and after its
  // turn, when the rows before it had these fates.
  ghost function FirstLook(s: S.Nvr, ids: seq<Id>, fates: seq<Fate>, turns: seq<Turn>, i: nat): S.Nvr
    requires i <= |fates| && i < |turns| && |turns| == |ids|
    decreases i, 0
  {
    S.Next(S.Run(if i == 0 then s else AfterTurn(s, ids, fates, turns, i - 1), turns[i].before), S.ExpireLeases)
  }

  ghost function SecondLook(s: S.Nvr, ids: seq<Id>, fates: seq<Fate>, turns: seq<Turn>, i: nat): S.Nvr
    requires i <= |fates| && i < |turns| && |turns| == |ids|
    decreases i, 1
  {
    S.Run(FirstLook(s, ids, fates, turns, i), turns[i].between)
  }

  ghost function AfterTurn(s: S.Nvr, ids: seq<Id>, fates: seq<Fate>, turns: seq<Turn>, i: nat): S.Nvr
    requires i < |fates| && i < |turns| && |turns| == |ids|
    decreases i, 2
  {
    if TakesSecondLook(fates[i])
    then S.Next(SecondLook(s, ids, fates, turns, i), S.RetentionRemove(ids[i], turns[i].resolvable))
    else FirstLook(s, ids, fates, turns, i)
  }

  ghost function SeenAt(s: S.Nvr, ids: seq<Id>, fates: seq<Fate>, turns: seq<Turn>, i: nat): Seen
    requires i <= |fates| && i < |turns| && |turns| == |ids|
  {
    Seen(S.InUse(FirstLook(s, ids, fates, turns, i), ids[i]),
         Look(SecondLook(s, ids, fates, turns, i), ids[i], turns[i].resolvable), turns[i].pressure)
  }

  // What the sweep saw is what was there.
  ghost predicate Witnessed(s: S.Nvr, ids: seq<Id>, seen: seq<Seen>, fates: seq<Fate>, turns: seq<Turn>)
  {
    |fates| <= |ids| == |turns| == |seen|
    && forall i :: 0 <= i < |fates| ==> seen[i] == SeenAt(s, ids, fates, turns, i)
  }

  ghost predicate Swept(s: S.Nvr, ids: seq<Id>, rows: seq<Row>, policy: Policy, now: int, first: bool, seen: seq<Seen>,
                        fates: seq<Fate>, turns: seq<Turn>)
  {
    && IsSnapshot(s, ids, rows) && TurnsByOthers(turns)
    && IsSweep(rows, policy, now, seen, first, fates) && |fates| == |rows| && Witnessed(s, ids, seen, fates, turns)
  }

  // ---------- The sweep is a run ----------

  lemma {:induction false} OthersKeepSweep(s: S.Nvr, steps: seq<S.Step>)
    requires ByOthers(steps)
    ensures S.Run(s, steps).sweep == s.sweep
  {
    if steps != [] {
      hide S.Next;
      OthersKeepSweep(s, steps[..|steps| - 1]);
      OtherKeepsSweep(S.Run(s, steps[..|steps| - 1]), steps[|steps| - 1]);
    }
  }

  lemma OtherKeepsSweep(s: S.Nvr, step: S.Step)
    requires !step.RetentionStart? && !step.RetentionRemove? && !step.RetentionEnd? && !step.Migrate? && !step.Restart?
    ensures S.Next(s, step).sweep == s.sweep
  {
    hide S.Delete; hide S.Remove; hide S.Move; hide S.Add; hide S.Borrow;
  }

  lemma {:induction false} RunKeepsInv(s: S.Nvr, steps: seq<S.Step>)
    requires S.Inv(s)
    ensures S.Inv(S.Run(s, steps))
  {
    hide S.Inv; hide S.Next;
    if steps != [] {
      RunKeepsInv(s, steps[..|steps| - 1]);
      S.StepKeepsInv(S.Run(s, steps[..|steps| - 1]), steps[|steps| - 1]);
    }
  }

  lemma RunOthers(s: S.Nvr, steps: seq<S.Step>)
    requires S.Inv(s) && ByOthers(steps)
    ensures S.Inv(S.Run(s, steps)) && S.Run(s, steps).sweep == s.sweep
  {
    RunKeepsInv(s, steps);
    OthersKeepSweep(s, steps);
  }

  // Every moment of the sweep is a moment of a run, with the sweep's snapshot
  // in place.
  lemma {:induction false} LooksKeepInv(s: S.Nvr, ids: seq<Id>, fates: seq<Fate>, turns: seq<Turn>, i: nat)
    requires S.Inv(s) && TurnsByOthers(turns) && i <= |fates| && i < |turns| && |turns| == |ids|
    ensures S.Inv(FirstLook(s, ids, fates, turns, i)) && FirstLook(s, ids, fates, turns, i).sweep == s.sweep
    ensures S.Inv(SecondLook(s, ids, fates, turns, i)) && SecondLook(s, ids, fates, turns, i).sweep == s.sweep
    decreases i
  {
    hide S.Inv; hide S.Run; hide S.Next;
    var u := if i == 0 then s else AfterTurn(s, ids, fates, turns, i - 1);
    if i > 0 {
      LooksKeepInv(s, ids, fates, turns, i - 1);
      var b := SecondLook(s, ids, fates, turns, i - 1);
      S.StepKeepsInv(b, S.RetentionRemove(ids[i - 1], turns[i - 1].resolvable));
      RemoveKeepsSweep(b, ids[i - 1], turns[i - 1].resolvable);
    }
    RunOthers(u, turns[i].before);
    var v := S.Run(u, turns[i].before);
    S.StepKeepsInv(v, S.ExpireLeases);
    ExpiryKeepsSweep(v);
    RunOthers(FirstLook(s, ids, fates, turns, i), turns[i].between);
  }

  lemma RemoveKeepsSweep(s: S.Nvr, id: Id, resolvable: bool)
    ensures S.Next(s, S.RetentionRemove(id, resolvable)).sweep == s.sweep
  {
  }

  lemma ExpiryKeepsSweep(s: S.Nvr)
    ensures S.Next(s, S.ExpireLeases).sweep == s.sweep
  {
  }

  // ---------- What fates mean ----------

  // The second critical section does what the look found.
  lemma LookIsRemove(s: S.Nvr, id: Id, resolvable: bool)
    requires S.Inv(s) && s.sweep.Some? && id in s.sweep.value
    ensures var t := S.Next(s, S.RetentionRemove(id, resolvable));
      match Look(s, id, resolvable)
      case Skipped => t == s
      case Unresolved => t == S.WithRow(s, id, s.rows[id].(integrity := S.Missing))
      case Removed =>
        && t.rows == s.rows[id := S.Erased(s.rows[id])] && t.files == s.files - {s.rows[id].place}
  {
    hide S.ReadersOk; hide S.ExportOk; hide S.KeysOk;
  }

  // A row's fate and its segment: in use at the first look; of an unconfigured
  // camera; with no reason to go; locked, in use or already deleted at the
  // second look, and untouched; marked missing because its path does not
  // resolve; or, for a reason and neither locked nor in use, erased together
  // with its file.
  lemma FateMeans(s: S.Nvr, ids: seq<Id>, rows: seq<Row>, policy: Policy, now: int, first: bool, seen: seq<Seen>,
                  fates: seq<Fate>, turns: seq<Turn>, i: nat)
    requires S.Inv(s) && Swept(s, ids, rows, policy, now, first, seen, fates, turns) && i < |fates|
    ensures var id := ids[i];
      var a, b := FirstLook(s, ids, fates, turns, i), SecondLook(s, ids, fates, turns, i);
      var t := AfterTurn(s, ids, fates, turns, i);
      match fates[i]
      case Active => S.InUse(a, id)
      case Unconfigured => rows[i].camera !in policy.cameras
      case WithinBudget =>
        rows[i].camera in policy.cameras && !ReasonFor(rows, policy, now, seen, first, fates[..i]).Any()
      case Protected =>
        t == b && (S.InUse(b, id) || id !in b.rows || b.rows[id].locked || b.rows[id].integrity.Deleted?)
      case Unresolvable => id in t.rows && t.rows[id].integrity.Missing? && t.files == b.files
      case Deleted =>
        && rows[i].camera in policy.cameras && ReasonFor(rows, policy, now, seen, first, fates[..i]).Any()
        && id in b.rows && !b.rows[id].locked && !S.InUse(b, id)
        && t.rows == b.rows[id := S.Erased(b.rows[id])] && t.files == b.files - {b.rows[id].place}
  {
    hide S.Inv; hide S.Next; hide S.InUse; hide FirstLook; hide SecondLook; hide IsSnapshot; hide TurnsByOthers;
    hide ReasonFor;
    SnapshotHas(s, ids, rows, i);
    assert TurnsByOthers(turns);
    LooksKeepInv(s, ids, fates, turns, i);
    LookIsRemove(SecondLook(s, ids, fates, turns, i), ids[i], turns[i].resolvable);
    assert seen[i] == SeenAt(s, ids, fates, turns, i);
    assert fates[i] == FateOf(rows, policy, now, seen, first, fates[..i]);
  }

  lemma SnapshotHas(s: S.Nvr, ids: seq<Id>, rows: seq<Row>, i: nat)
    requires IsSnapshot(s, ids, rows) && i < |ids|
    ensures s.sweep.Some? && ids[i] in s.sweep.value
  {
    assert ids[i] in ids;
  }

  // If a budget is still exceeded when the sweep ends, every row it covers was
  // in use at the first look, of an unconfigured camera, locked, in use or
  // gone at the second, unresolvable and marked missing, or erased.
  lemma BudgetExceededOnlyByProtectedSegments(s: S.Nvr, ids: seq<Id>, rows: seq<Row>, policy: Policy, now: int,
                                              first: bool, seen: seq<Seen>, fates: seq<Fate>, turns: seq<Turn>, i: nat)
    requires S.Inv(s) && Swept(s, ids, rows, policy, now, first, seen, fates, turns) && i < |fates|
    requires (policy.maxBytes > 0 && Remaining(rows, fates) > policy.maxBytes)
          || (rows[i].camera in policy.cameras && policy.cameras[rows[i].camera].maxBytes > 0
              && CameraRemaining(rows, fates, rows[i].camera) > policy.cameras[rows[i].camera].maxBytes)
    ensures var id := ids[i];
      var a, b := FirstLook(s, ids, fates, turns, i), SecondLook(s, ids, fates, turns, i);
      var t := AfterTurn(s, ids, fates, turns, i);
      || S.InUse(a, id)
      || rows[i].camera !in policy.cameras
      || S.InUse(b, id) || id !in b.rows || b.rows[id].locked || b.rows[id].integrity.Deleted?
      || (id in t.rows && t.rows[id].integrity.Missing?)
      || (id in t.rows && t.rows[id].integrity.Deleted? && b.rows[id].place !in t.files)
  {
    hide S.Inv; hide S.InUse; hide FirstLook; hide SecondLook; hide AfterTurn; hide IsSnapshot; hide TurnsByOthers;
    hide Witnessed; hide IsSweep; hide Remaining; hide CameraRemaining; hide ReasonFor;
    BudgetExceededOnlyByProtectedRows(rows, policy, now, seen, first, fates, i);
    FateMeans(s, ids, rows, policy, now, first, seen, fates, turns, i);
  }

  // ---------- What the rule does to segments ----------

  // An expired segment that is neither locked nor in use when it is looked at
  // is erased with its file, or marked missing if its path does not resolve.
  lemma ExpiredSegmentGoes(s: S.Nvr, ids: seq<Id>, rows: seq<Row>, policy: Policy, now: int, first: bool,
                           seen: seq<Seen>, fates: seq<Fate>, turns: seq<Turn>, i: nat)
    requires S.Inv(s) && Swept(s, ids, rows, policy, now, first, seen, fates, turns) && i < |fates|
    requires rows[i].camera in policy.cameras && rows[i].endMs < now - policy.cameras[rows[i].camera].maxAgeMs
    requires !S.InUse(FirstLook(s, ids, fates, turns, i), ids[i])
    requires var b := SecondLook(s, ids, fates, turns, i);
      ids[i] in b.rows && !b.rows[ids[i]].locked && !b.rows[ids[i]].integrity.Deleted? && !S.InUse(b, ids[i])
    ensures var b, t := SecondLook(s, ids, fates, turns, i), AfterTurn(s, ids, fates, turns, i);
      && ids[i] in t.rows
      && if turns[i].resolvable
         then t.rows[ids[i]].integrity.Deleted? && t.rows[ids[i]].size == 0 && b.rows[ids[i]].place !in t.files
         else t.rows[ids[i]].integrity.Missing? && t.files == b.files
  {
    hide S.Inv; hide S.InUse; hide FirstLook; hide SecondLook; hide AfterTurn; hide IsSnapshot; hide TurnsByOthers;
    hide Remaining; hide CameraRemaining; hide ReasonFor;
    assert seen[i] == SeenAt(s, ids, fates, turns, i);
    SweepFollowsRule(rows, policy, now, seen, first, fates);
    FateMeans(s, ids, rows, policy, now, first, seen, fates, turns, i);
  }

  // A segment that has not expired is left alone as long as both budgets are
  // kept and the disk is not under pressure when its turn comes: its turn
  // changes nothing but the leases that ran out.
  lemma FreshSegmentStays(s: S.Nvr, ids: seq<Id>, rows: seq<Row>, policy: Policy, now: int, first: bool,
                          seen: seq<Seen>, fates: seq<Fate>, turns: seq<Turn>, i: nat)
    requires S.Inv(s) && Swept(s, ids, rows, policy, now, first, seen, fates, turns) && i < |fates|
    requires rows[i].camera in policy.cameras && rows[i].endMs >= now - policy.cameras[rows[i].camera].maxAgeMs
    requires policy.maxBytes <= 0 || Remaining(rows, fates[..i]) <= policy.maxBytes
    requires policy.cameras[rows[i].camera].maxBytes <= 0
          || CameraRemaining(rows, fates[..i], rows[i].camera) <= policy.cameras[rows[i].camera].maxBytes
    requires !PressureBefore(fates[..i], seen, first)
    ensures AfterTurn(s, ids, fates, turns, i) == FirstLook(s, ids, fates, turns, i)
  {
    hide FirstLook; hide SecondLook; hide IsSnapshot; hide TurnsByOthers;
    hide Remaining; hide CameraRemaining; hide ReasonFor; hide PressureBefore;
    SweepFollowsRule(rows, policy, now, seen, first, fates);
  }

  // ---------- Every sweep happens somehow ----------

  lemma {:induction false} PressureIsPast(fates: seq<Fate>, seen: seq<Seen>, other: seq<Seen>, first: bool)
    requires |fates| <= |seen| == |other| && forall i :: 0 <= i < |fates| ==> seen[i] == other[i]
    ensures PressureBefore(fates, seen, first) == PressureBefore(fates, other, first)
  {
    if fates != [] {
      PressureIsPast(fates[..|fates| - 1], seen, other, first);
    }
  }

  lemma FateIsPast(rows: seq<Row>, policy: Policy, now: int, seen: seq<Seen>, other: seq<Seen>, first: bool,
                   before: seq<Fate>)
    requires |before| < |rows| <= |seen| == |other| && forall i :: 0 <= i <= |before| ==> seen[i] == other[i]
    ensures FateOf(rows, policy, now, seen, first, before) == FateOf(rows, policy, now, other, first, before)
  {
    PressureIsPast(before, seen, other, first);
  }

  lemma {:induction false} LooksArePast(s: S.Nvr, ids: seq<Id>, fates: seq<Fate>, longer: seq<Fate>,
                                       turns: seq<Turn>, i: nat)
    requires i <= |fates| && fates <= longer && i < |turns| && |turns| == |ids|
    ensures FirstLook(s, ids, fates, turns, i) == FirstLook(s, ids, longer, turns, i)
    ensures SecondLook(s, ids, fates, turns, i) == SecondLook(s, ids, longer, turns, i)
    decreases i
  {
    hide S.Next; hide S.Run;
    if i > 0 {
      LooksArePast(s, ids, fates, longer, turns, i - 1);
    }
  }

  // Whatever the other threads do, the sweep has fates and sees what is there.
  lemma {:induction false} SweepExists(s: S.Nvr, ids: seq<Id>, rows: seq<Row>, policy: Policy, now: int, first: bool,
                                       turns: seq<Turn>, n: nat) returns (seen: seq<Seen>, fates: seq<Fate>)
    requires IsSnapshot(s, ids, rows) && |turns| == |ids| && n <= |ids|
    ensures IsSweep(rows, policy, now, seen, first, fates) && Witnessed(s, ids, seen, fates, turns) && |fates| == n
  {
    hide S.Next; hide S.Run; hide IsSnapshot; hide FirstLook; hide SecondLook; hide FateOf;
    assert |ids| == |rows| by { SnapshotSize(s, ids, rows); }
    if n == 0 {
      seen, fates := seq(|ids|, i => Seen(false, Skipped, false)), [];
    } else {
      var sofar, before := SweepExists(s, ids, rows, policy, now, first, turns, n - 1);
      seen := sofar[n - 1 := SeenAt(s, ids, before, turns, n - 1)];
      var fate := FateOf(rows, policy, now, seen, first, before);
      fates := before + [fate];
      forall i | 0 <= i < n ensures fates[i] == FateOf(rows, policy, now, seen, first, fates[..i]) {
        assert fates[..i] == before[..i];
        if i < n - 1 {
          FateIsPast(rows, policy, now, sofar, seen, first, before[..i]);
        } else {
          assert before[..i] == before;
        }
      }
      forall i | 0 <= i < n ensures seen[i] == SeenAt(s, ids, fates, turns, i) {
        LooksArePast(s, ids, before, fates, turns, i);
      }
    }
  }

  lemma SnapshotSize(s: S.Nvr, ids: seq<Id>, rows: seq<Row>)
    requires IsSnapshot(s, ids, rows)
    ensures |ids| == |rows|
  {
  }
}
