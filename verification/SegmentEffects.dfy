// What the operations on recorded segments do for their callers, each with
// its conditions written out, and what a lease and an export are worth over
// time (nvr/nvr_service.py and nvr/evidence.py).

module SegmentEffects {
  import opened Segments
  import opened Options

  // A reader holds the segment, or a lease that has not run out does.
  ghost predicate Held(s: Nvr, id: SegmentId)
  {
    Count(s.readers, id) > 0 || exists l :: l in s.leases && s.leases[l].segment == id && s.leases[l].expiry > s.now
  }

  lemma HeldIsInUse(s: Nvr, id: SegmentId)
    ensures InUse(s.(leases := Unexpired(s.leases, s.now)), id) <==> Held(s, id)
  {
    var live := Unexpired(s.leases, s.now);
    if l :| l in s.leases && s.leases[l].segment == id && s.leases[l].expiry > s.now {
      assert l in live && live[l].segment == id;
    }
  }

  // A deletion happens exactly if the segment is recorded, unlocked and held
  // by nobody, and its file is there or was brought back; then the file is
  // gone and the row is a tombstone. Otherwise nothing is deleted.
  lemma DeletionMeans(s: Nvr, id: SegmentId, restored: bool)
    ensures var t := Next(s, DeleteSegment(id, restored));
      && t.readers == s.readers && t.pins == s.pins && t.exports == s.exports && t.sweep == s.sweep && t.now == s.now
      && (forall l :: l in t.leases ==> l in s.leases && t.leases[l] == s.leases[l])
      && (forall l :: l in s.leases && s.leases[l].expiry > s.now ==> l in t.leases)
      && if id in s.rows && s.rows[id].integrity != Deleted && s.rows[id].integrity != Missing && !s.rows[id].locked
            && !Held(s, id) && (s.rows[id].place in s.files || restored)
         then t.rows == s.rows[id := s.rows[id].(integrity := Deleted, size := 0)]
              && t.files == s.files - {s.rows[id].place}
         else t.rows == s.rows && t.files == s.files
  {
    hide InUse; hide Held; hide Frame; hide SamePlaces;
    HeldIsInUse(s, id);
  }

  // Retention's removal, on the row it finds now and the place it saw first.
  lemma RemovalMeans(s: Nvr, id: SegmentId, resolvable: bool)
    requires s.sweep.Some? && id in s.sweep.value
    ensures var t := Next(s, RetentionRemove(id, resolvable));
      && t.leases == s.leases && t.readers == s.readers && t.exports == s.exports
      && if id in s.rows && s.rows[id].integrity != Deleted && !s.rows[id].locked && Count(s.readers, id) == 0
            && forall l :: l in s.leases ==> s.leases[l].segment != id
         then if resolvable
              then t.rows == s.rows[id := s.rows[id].(integrity := Deleted, size := 0)]
                   && t.files == s.files - {s.sweep.value[id].place}
              else t.rows == s.rows[id := s.rows[id].(integrity := Missing)] && t.files == s.files
         else t == s
  {
    hide Frame; hide SamePlaces;
  }

  // A migration moves a segment that nobody holds and nothing locks exactly if
  // what arrived is its content: the row then names the copy, which has the
  // expected digest and size, and only the source may be gone. Otherwise the
  // row is marked and the files stay.
  lemma MigrationMeans(s: Nvr, id: SegmentId, target: string, copied: File, unlinked: bool)
    requires s.sweep.None? && id in s.rows && s.rows[id].place.volume != target && !s.rows[id].locked
    requires Count(s.readers, id) == 0 && forall l :: l in s.leases ==> s.leases[l].segment != id
    ensures var t := Next(s, Migrate(id, target, copied, unlinked));
      var row := s.rows[id];
      var to := Place(target, row.place.key);
      if row.place in s.files && copied.size == row.size
         && copied.digest == (if row.sha.Some? then row.sha.value else s.files[row.place].digest)
      then t.rows == s.rows[id := row.(place := to, sha := Some(copied.digest))]
           && t.files == s.files[to := copied] - if unlinked then {row.place} else {}
      else t.rows == s.rows[id := row.(integrity := MigrationFailed)] && t.files == s.files
  {
    hide Frame;
  }

  lemma MigrationRefused(s: Nvr, id: SegmentId, target: string, copied: File, unlinked: bool)
    requires s.sweep.Some? || id !in s.rows || s.rows[id].place.volume == target || s.rows[id].locked
          || Count(s.readers, id) > 0 || exists l :: l in s.leases && s.leases[l].segment == id
    ensures Next(s, Migrate(id, target, copied, unlinked)) == s
  {
    hide Frame;
  }

  // ---------- Pins ----------

  // A block is entered exactly if every row can be read; then each id counts as
  // often as it was named.
  lemma PinMeans(s: Nvr, pin: PinId, ids: seq<SegmentId>, id: SegmentId)
    requires pin !in s.pins && pin !in s.exports
    ensures var t := Next(s, OpenPin(pin, ids));
      && t.rows == s.rows && t.files == s.files && t.leases == s.leases && t.exports == s.exports
      && if forall x :: x in ids ==> x in s.rows && s.rows[x].integrity != Deleted && s.rows[x].integrity != Missing
         then t.pins == s.pins[pin := ids] && Count(t.readers, id) == Count(s.readers, id) + multiset(ids)[id]
         else t == s
  {
  }

  // Leaving the block gives back what entering took.
  lemma UnpinMeans(s: Nvr, pin: PinId, id: SegmentId)
    requires ReadersOk(s.readers, s.pins) && pin in s.pins
    ensures var t := Next(s, ClosePin(pin));
      && t.rows == s.rows && t.files == s.files && t.leases == s.leases && t.pins == s.pins - {pin}
      && Count(t.readers, id) == Count(s.readers, id) - multiset(s.pins[pin])[id]
      && forall e :: e in t.exports <==> e in s.exports && (e != pin || s.exports[e].published)
  {
    HeldStep(s.pins, s.pins.Keys, pin);
  }

  // ---------- Locks, leases, restarts ----------

  lemma LockMeans(s: Nvr, id: SegmentId, locked: bool)
    ensures Next(s, SetLock(id, locked))
         == if id in s.rows && s.rows[id].integrity != Deleted
            then s.(rows := s.rows[id := s.rows[id].(locked := locked)]) else s
  {
  }

  // A lease is granted exactly if the segment can be read, fewer than 1024
  // leases are live and fewer than 64 of them the owner's.
  lemma LeaseMeans(s: Nvr, lease: LeaseId, id: SegmentId, ttl: nat, owner: string)
    requires lease !in s.leases
    ensures var t := Next(s, CreateLease(lease, id, ttl, owner));
      var live := set l | l in s.leases && s.leases[l].expiry > s.now;
      && t.rows == s.rows && t.files == s.files && t.readers == s.readers
      && (forall l :: l in live ==> l in t.leases && t.leases[l] == s.leases[l])
      && (forall l :: l in t.leases ==> l in live || l == lease)
      && (lease in t.leases <==>
            && id in s.rows && s.rows[id].integrity != Deleted && s.rows[id].integrity != Missing
            && |live| < 1024 && |set l | l in live && s.leases[l].owner == owner| < 64)
      && (lease in t.leases ==> t.leases[lease] == Lease(id, s.now + ttl, owner))
  {
    hide Next; hide OwnedBy; hide Unexpired;
    LeaseStep(s, lease, id, ttl, owner);
    LiveLeases(s.leases, s.now, owner);
  }

  lemma LeaseStep(s: Nvr, lease: LeaseId, id: SegmentId, ttl: nat, owner: string)
    requires lease !in s.leases
    ensures var live := Unexpired(s.leases, s.now);
      Next(s, CreateLease(lease, id, ttl, owner)) == s.(leases :=
        if id in s.rows && s.rows[id].integrity != Deleted && s.rows[id].integrity != Missing
           && |live| < 1024 && |OwnedBy(live, owner)| < 64
        then live[lease := Lease(id, s.now + ttl, owner)] else live)
  {
    hide Frame; hide SamePlaces; hide OwnedBy;
  }

  lemma LiveLeases(leases: Leases, now: int, owner: string)
    ensures forall l :: l in Unexpired(leases, now) ==> Unexpired(leases, now)[l] == leases[l]
    ensures var live := set l | l in leases && leases[l].expiry > now;
      && Unexpired(leases, now).Keys == live && |Unexpired(leases, now)| == |live|
      && OwnedBy(Unexpired(leases, now), owner) == set l | l in live && leases[l].owner == owner
  {
    var kept := Unexpired(leases, now);
    assert kept.Keys == set l | l in leases && leases[l].expiry > now;
    assert |kept| == |kept.Keys|;
  }

  // Time passes, and leases go when it has come, or when their owner gives
  // them back.
  lemma LeasesEnd(s: Nvr, now: int, lease: LeaseId, owner: string)
    ensures Next(s, Tick(now)) == s.(now := if now < s.now then s.now else now)
    ensures var t := Next(s, ExpireLeases);
      && t == s.(leases := t.leases)
      && (forall l :: l in t.leases <==> l in s.leases && s.leases[l].expiry > s.now)
      && (forall l :: l in t.leases ==> t.leases[l] == s.leases[l])
    ensures Next(s, ReleaseLease(lease, owner))
         == if lease in s.leases && s.leases[lease].owner == owner then s.(leases := s.leases - {lease}) else s
  {
  }

  // A sweep looks at the rows as they were when it began; a segment found
  // corrupt is marked.
  lemma MarksMean(s: Nvr, id: SegmentId)
    ensures s.sweep.None? ==> Next(s, RetentionStart) == s.(sweep := Some(s.rows))
    ensures s.sweep.Some? ==> Next(s, RetentionStart) == s
    ensures Next(s, RetentionEnd) == s.(sweep := None)
    ensures Next(s, MarkCorrupt(id))
         == if id in s.rows then s.(rows := s.rows[id := s.rows[id].(integrity := Corrupt)]) else s
  {
  }

  predicate GivesBack(step: Step, lease: LeaseId, owner: string)
  {
    step.Restart? || step == ReleaseLease(lease, owner)
  }

  // The lease, while it lasts.
  predicate Lent(s: Nvr, lease: LeaseId, l: Lease)
  {
    s.now < l.expiry ==> lease in s.leases && s.leases[lease] == l
  }

  lemma LentStep(s: Nvr, step: Step, lease: LeaseId, l: Lease)
    requires Lent(s, lease, l) && !GivesBack(step, lease, l.owner)
    ensures Lent(Next(s, step), lease, l) && s.now <= Next(s, step).now
  {
    hide Frame; hide SamePlaces; hide Remove; hide Move; hide Add; hide AllVisible; hide Pinned; hide Unpinned;
    hide InUse; hide OwnedBy;
    if step.RetentionRemove? || step.Migrate? || step.AddSegment? {
      LeasesKept(s, step);
    }
  }

  lemma LeasesKept(s: Nvr, step: Step)
    requires step.RetentionRemove? || step.Migrate? || step.AddSegment?
    ensures Next(s, step).leases == s.leases && Next(s, step).now == s.now
  {
    hide InUse; hide MovedRow; hide MovedFiles; hide SamePlaces;
  }

  // What a lease is worth: until it runs out, is released by its owner or the
  // service restarts, the segment's file stays, whatever else happens.
  lemma {:induction false} LeaseProtects(s: Nvr, lease: LeaseId, more: seq<Step>)
    requires Inv(s) && lease in s.leases && Present(s, s.leases[lease].segment)
    requires forall i :: 0 <= i < |more| ==> !GivesBack(more[i], lease, s.leases[lease].owner)
    ensures Inv(Run(s, more)) && Lent(Run(s, more), lease, s.leases[lease])
    ensures s.now <= Run(s, more).now
    ensures Run(s, more).now < s.leases[lease].expiry ==> Kept(s, Run(s, more), s.leases[lease].segment)
  {
    if more != [] {
      hide Next; hide Inv; hide Lent; hide Kept; hide Present;
      var before, step := more[..|more| - 1], more[|more| - 1];
      LeaseProtects(s, lease, before);
      var t := Run(s, before);
      StepKeepsInv(t, step);
      LentStep(t, step, lease, s.leases[lease]);
      if Next(t, step).now < s.leases[lease].expiry {
        KeptIsPresent(s, t, s.leases[lease].segment);
        LentIsProtected(t, lease, s.leases[lease]);
        ProtectedFileSurvives(t, step, s.leases[lease].segment);
        KeptOn(s, t, Next(t, step), s.leases[lease].segment);
      }
    }
  }

  lemma KeptIsPresent(s: Nvr, t: Nvr, id: SegmentId)
    requires Present(s, id) && Kept(s, t, id)
    ensures Present(t, id)
  {
  }

  lemma KeptOn(s: Nvr, t: Nvr, u: Nvr, id: SegmentId)
    requires Present(s, id) && Kept(s, t, id) && Present(t, id) && Kept(t, u, id)
    ensures Kept(s, u, id)
  {
  }

  lemma LentIsProtected(s: Nvr, lease: LeaseId, l: Lease)
    requires Lent(s, lease, l) && s.now < l.expiry && Present(s, l.segment)
    ensures Protected(s, l.segment)
  {
    assert lease in s.leases && s.leases[lease].segment == l.segment;
  }

  // A restart forgets pins, leases and exports that were not published, and
  // keeps rows and files.
  lemma RestartMeans(s: Nvr)
    ensures var t := Next(s, Restart);
      && t.rows == s.rows && t.files == s.files && t.now == s.now
      && t.readers == map[] && t.leases == map[] && t.pins == map[] && t.sweep.None?
      && (forall id :: !Held(t, id))
      && (forall e :: e in t.exports <==> e in s.exports && s.exports[e].published)
      && (forall e :: e in t.exports ==> t.exports[e] == s.exports[e])
  {
  }

  // ---------- Exports ----------

  // An export starts exactly if its id is new and all its sources can be read
  // and are not corrupt.
  lemma ResolutionMeans(s: Nvr, pin: PinId, ids: seq<SegmentId>, lock: bool)
    requires pin !in s.pins && pin !in s.exports
    ensures var t := Next(s, Resolve(pin, ids, lock));
      && t.rows == s.rows && t.files == s.files && t.leases == s.leases
      && if forall id :: id in ids ==> id in s.rows && s.rows[id].integrity != Deleted
                                       && s.rows[id].integrity != Missing && s.rows[id].integrity != Corrupt
         then
           && pin in t.pins && t.pins[pin] == ids && pin in t.exports
           && t.exports[pin].sources == ids && t.exports[pin].lock == lock && !t.exports[pin].published
           && forall id :: id in ids && s.rows[id].place in s.files ==>
                id in t.exports[pin].present && t.exports[pin].present[id] == s.files[s.rows[id].place]
         else t == s
  {
    hide Pinned;
  }

  predicate EndsExport(step: Step, pin: PinId)
  {
    step.Restart? || step == ClosePin(pin) || (step.Publish? && step.pin == pin && !step.cancelled)
  }

  lemma ExportGoesOn(s: Nvr, step: Step, pin: PinId)
    requires pin in s.exports && !s.exports[pin].published && !EndsExport(step, pin)
    ensures pin in Next(s, step).exports && Next(s, step).exports[pin] == s.exports[pin]
  {
    hide SamePlaces; hide Delete; hide Remove; hide Move; hide Add; hide Borrow; hide AllVisible; hide Pinned;
    hide Unpinned; hide LocksKept;
  }

  lemma {:induction false} ExportRunsOn(s: Nvr, more: seq<Step>, pin: PinId)
    requires Inv(s) && pin in s.exports && !s.exports[pin].published
    requires forall i :: 0 <= i < |more| ==> !EndsExport(more[i], pin)
    ensures Inv(Run(s, more)) && pin in Run(s, more).exports && Run(s, more).exports[pin] == s.exports[pin]
  {
    if more != [] {
      hide Next; hide Inv; hide EndsExport;
      ExportRunsOn(s, more[..|more| - 1], pin);
      StepKeepsInv(Run(s, more[..|more| - 1]), more[|more| - 1]);
      ExportGoesOn(Run(s, more[..|more| - 1]), more[|more| - 1], pin);
    }
  }

  // Between the moment its sources are found and the moment it is published,
  // whatever the other threads do: every source row is still recorded, every
  // source file that was there is there unchanged, and a locking export leaves
  // all of them locked.
  lemma ExportPublishesWhatItFound(s: Nvr, pin: PinId, ids: seq<SegmentId>, lock: bool, more: seq<Step>)
    requires Inv(s) && pin !in s.pins && pin !in s.exports
    requires forall id :: id in ids ==> id in s.rows && s.rows[id].integrity != Deleted
                                        && s.rows[id].integrity != Missing && s.rows[id].integrity != Corrupt
    requires forall i :: 0 <= i < |more| ==> !EndsExport(more[i], pin)
    ensures var u := Run(Next(s, Resolve(pin, ids, lock)), more);
      var v := Next(u, Publish(pin, false));
      && pin in v.exports && v.exports[pin].published && v.files == u.files
      && (forall id :: id in ids ==> id in v.rows && v.rows[id].integrity != Deleted && (lock ==> v.rows[id].locked))
      && (forall id :: id in ids && s.rows[id].place in s.files ==>
            Present(v, id) && FileOf(v, id) == s.files[s.rows[id].place])
  {
    var r := Next(s, Resolve(pin, ids, lock));
    ResolutionMeans(s, pin, ids, lock);
    StepKeepsInv(s, Resolve(pin, ids, lock));
    hide Inv; hide EndsExport; hide Run;
    ExportRunsOn(r, more, pin);
    PublishingKeeps(Run(r, more), pin);
  }

  // A publication locks the sources of a locking export and changes no other
  // row; a cancelled one changes nothing.
  lemma PublishingKeeps(u: Nvr, pin: PinId)
    requires Inv(u) && pin in u.exports && !u.exports[pin].published
    ensures var v := Next(u, Publish(pin, false)); var e := u.exports[pin];
      && v.exports == u.exports[pin := e.(published := true)] && v.files == u.files && v.pins == u.pins
      && (forall id :: id in e.sources ==> id in v.rows && v.rows[id].integrity != Deleted
                                           && (e.lock ==> v.rows[id].locked))
      && (forall id :: id in e.present ==> Present(v, id) && FileOf(v, id) == e.present[id])
      && v.rows.Keys == u.rows.Keys
      && (forall id :: id in u.rows ==>
            v.rows[id] == if e.lock && id in e.sources then u.rows[id].(locked := true) else u.rows[id])
    ensures Next(u, Publish(pin, true)) == u
  {
    hide ReadersOk; hide KeysOk; hide SweepOk;
    assert ExportOk(u, pin);
  }

  // A new segment is recorded as verified and unlocked, under its own name and
  // key only.
  lemma AdditionMeans(s: Nvr, id: SegmentId, row: Segment, file: File)
    ensures var t := Next(s, AddSegment(id, row, file));
      if id !in s.rows && forall x :: x in s.rows ==> s.rows[x].place.key != row.place.key
      then t == s.(rows := s.rows[id := row.(locked := false, integrity := Verified)],
                   files := s.files[row.place := file])
      else t == s
  {
    hide Frame;
  }
}
