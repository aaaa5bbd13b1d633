// The life of a recorded segment under concurrent retention, deletion,
// migration, evidence locks, reader pins, playback leases and exports
// (nvr/nvr_service.py and nvr/evidence.py). Each step is one block run
// under reader_lock.

module Segments {
  import opened Options

  type SegmentId = string
  type LeaseId = string
  // One `with pin_segments(...)` block; an export's pins carry its id.
  type PinId = string
  type Digest = nat

  datatype Place = Place(volume: string, key: string)
  datatype File = File(size: nat, digest: Digest)
  datatype Integrity = Verified | Deleted | Missing | Corrupt | MigrationFailed
  datatype Segment = Segment(camera: string, startMs: int, endMs: int, place: Place, size: nat,
                             sha: Option<Digest>, locked: bool, integrity: Integrity)
  datatype Lease = Lease(segment: SegmentId, expiry: int, owner: string)

  // `present` is history: the source files an export found when it resolved
  // its sources.
  datatype Export = Export(sources: seq<SegmentId>, lock: bool, present: map<SegmentId, File>, published: bool)

  type Rows = map<SegmentId, Segment>
  type Files = map<Place, File>
  type Readers = map<SegmentId, nat>
  type Leases = map<LeaseId, Lease>

  const MAX_LEASES := 1024
  const MAX_LEASES_PER_OWNER := 64

  // `sweep` is the row snapshot of the retention pass in progress.
  datatype Nvr = Nvr(rows: Rows, files: Files, readers: Readers, leases: Leases, now: int,
                     pins: map<PinId, seq<SegmentId>>, exports: map<PinId, Export>, sweep: Option<Rows>)

  function Init(): Nvr { Nvr(map[], map[], map[], map[], 0, map[], map[], None) }

  // ---------- Readers and leases ----------

  function Count(readers: Readers, id: SegmentId): nat
  {
    if id in readers then readers[id] else 0
  }

  function Pinned(readers: Readers, ids: seq<SegmentId>): Readers
  {
    map id | id in readers.Keys + (set x | x in ids) :: Count(readers, id) + multiset(ids)[id]
  }

  function Unpinned(readers: Readers, ids: seq<SegmentId>): Readers
  {
    map id | id in readers && readers[id] > multiset(ids)[id] :: readers[id] - multiset(ids)[id]
  }

  function Unexpired(leases: Leases, now: int): Leases
  {
    map l | l in leases && leases[l].expiry > now :: leases[l]
  }

  predicate Leased(leases: Leases, id: SegmentId)
  {
    exists l :: l in leases && leases[l].segment == id
  }

  predicate InUse(s: Nvr, id: SegmentId)
  {
    Count(s.readers, id) > 0 || Leased(s.leases, id)
  }

  // The rows a reader can open.
  predicate Visible(rows: Rows, id: SegmentId)
  {
    id in rows && rows[id].integrity != Deleted && rows[id].integrity != Missing
  }

  // ---------- Steps ----------

  datatype Step =
    | Tick(now: int)
    | AddSegment(id: SegmentId, row: Segment, file: File)
    | SetLock(id: SegmentId, locked: bool)
    | OpenPin(pin: PinId, ids: seq<SegmentId>)
    | ClosePin(pin: PinId)
    | CreateLease(lease: LeaseId, id: SegmentId, ttl: nat, owner: string)
    | ReleaseLease(lease: LeaseId, owner: string)
    | ExpireLeases
    | DeleteSegment(id: SegmentId, restored: bool)
    | RetentionStart
    | RetentionRemove(id: SegmentId, resolvable: bool)
    | RetentionEnd
    | Migrate(id: SegmentId, target: string, copied: File, unlinked: bool)
    | MarkCorrupt(id: SegmentId)
    | Resolve(pin: PinId, ids: seq<SegmentId>, lock: bool)
    | Publish(pin: PinId, cancelled: bool)
    | Restart

  function Erased(row: Segment): Segment
  {
    row.(integrity := Deleted, size := 0)
  }

  function WithRow(s: Nvr, id: SegmentId, row: Segment): Nvr
  {
    s.(rows := s.rows[id := row])
  }

  // Rows of the same places.
  predicate SamePlaces(rows: Rows, after: Rows)
  {
    after.Keys == rows.Keys && forall id :: id in rows ==> after[id].place == rows[id].place
  }

  predicate LocksKept(rows: Rows, after: Rows)
  {
    forall id :: id in rows && rows[id].locked ==> id in after && after[id].locked
  }

  // Pins, counters, exports, the sweep and the locks belong to their own
  // steps.
  predicate Frame(s: Nvr, t: Nvr)
  {
    && LocksKept(s.rows, t.rows)
    && t.readers == s.readers && t.pins == s.pins && t.exports == s.exports && t.sweep == s.sweep && t.now == s.now
  }

  function Delete(s: Nvr, id: SegmentId, restored: bool): (t: Nvr)
    ensures Frame(s, t) && SamePlaces(s.rows, t.rows)
  {
    if !Visible(s.rows, id) || s.rows[id].locked then s
    else
      var t := s.(leases := Unexpired(s.leases, s.now));
      var place := s.rows[id].place;
      if InUse(t, id) || (place !in s.files && !restored) then t
      else WithRow(t.(files := t.files - {place}), id, Erased(s.rows[id]))
  }

  // The second critical section of the retention loop for one snapshot row;
  // it re-reads the row's lock and integrity, the path comes from the
  // snapshot.
  function Remove(s: Nvr, id: SegmentId, resolvable: bool): (t: Nvr)
    ensures Frame(s, t) && SamePlaces(s.rows, t.rows)
  {
    if s.sweep.None? || id !in s.sweep.value then s
    else if InUse(s, id) || id !in s.rows || s.rows[id].locked || s.rows[id].integrity == Deleted then s
    else if !resolvable then WithRow(s, id, s.rows[id].(integrity := Missing))
    else WithRow(s.(files := s.files - {s.sweep.value[id].place}), id, Erased(s.rows[id]))
  }

  // The copy's digest and size decide; `copied` is what arrived.
  predicate Verifies(row: Segment, source: File, copied: File)
  {
    copied.digest == (if row.sha.Some? then row.sha.value else source.digest) && copied.size == row.size
  }

  predicate CanMove(s: Nvr, x: SegmentId, target: string)
  {
    s.sweep.None? && x in s.rows && s.rows[x].place.volume != target && !InUse(s, x) && !s.rows[x].locked
  }

  predicate CopyIsGood(s: Nvr, x: SegmentId, copied: File)
    requires x in s.rows
  {
    s.rows[x].place in s.files && Verifies(s.rows[x], s.files[s.rows[x].place], copied)
  }

  // The row after the attempt: it names the verified copy, or is marked.
  function MovedRow(s: Nvr, x: SegmentId, target: string, copied: File): Segment
    requires x in s.rows
  {
    var row := s.rows[x];
    if CopyIsGood(s, x, copied) then row.(place := Place(target, row.place.key), sha := Some(copied.digest))
    else row.(integrity := MigrationFailed)
  }

  function MovedFiles(s: Nvr, x: SegmentId, target: string, copied: File, unlinked: bool): Files
    requires x in s.rows
  {
    var from := s.rows[x].place;
    if !CopyIsGood(s, x, copied) then s.files
    else
      var files := s.files[Place(target, from.key) := copied];
      if unlinked then files - {from} else files
  }

  function Move(s: Nvr, id: SegmentId, target: string, copied: File, unlinked: bool): (t: Nvr)
    ensures Frame(s, t)
  {
    if !CanMove(s, id, target) then s
    else WithRow(s.(files := MovedFiles(s, id, target, copied, unlinked)), id, MovedRow(s, id, target, copied))
  }

  function Add(s: Nvr, id: SegmentId, row: Segment, file: File): (t: Nvr)
    ensures Frame(s, t)
  {
    if id in s.rows || (exists x :: x in s.rows && s.rows[x].place.key == row.place.key) then s
    else WithRow(s.(files := s.files[row.place := file]), id, row.(locked := false, integrity := Verified))
  }

  predicate AllVisible(rows: Rows, ids: seq<SegmentId>)
  {
    forall id :: id in ids ==> Visible(rows, id)
  }

  function Open(s: Nvr, pin: PinId, ids: seq<SegmentId>): Nvr
  {
    if pin in s.pins || !AllVisible(s.rows, ids) then s
    else s.(pins := s.pins[pin := ids], readers := Pinned(s.readers, ids))
  }

  // Leaving the block; an export that leaves it is over.
  function Close(s: Nvr, pin: PinId): Nvr
  {
    if pin !in s.pins then s
    else s.(pins := s.pins - {pin}, readers := Unpinned(s.readers, s.pins[pin]),
            exports := map e | e in s.exports && (e != pin || s.exports[e].published) :: s.exports[e])
  }

  function OwnedBy(leases: Leases, owner: string): set<LeaseId>
  {
    set l | l in leases && leases[l].owner == owner
  }

  function Borrow(s: Nvr, lease: LeaseId, id: SegmentId, ttl: nat, owner: string): (t: Nvr)
    ensures Frame(s, t) && SamePlaces(s.rows, t.rows)
  {
    var live := Unexpired(s.leases, s.now);
    if !Visible(s.rows, id) || |live| >= MAX_LEASES || |OwnedBy(live, owner)| >= MAX_LEASES_PER_OWNER || lease in live
    then s.(leases := live)
    else s.(leases := live[lease := Lease(id, s.now + ttl, owner)])
  }

  // Find the sources, pin them all, and note which files are there.
  function ResolveSources(s: Nvr, pin: PinId, ids: seq<SegmentId>, lock: bool): Nvr
  {
    if pin in s.pins || pin in s.exports || !AllVisible(s.rows, ids)
       || (exists id :: id in ids && s.rows[id].integrity == Corrupt) then s
    else
      var present := map id | id in ids && id in s.rows && s.rows[id].place in s.files :: s.files[s.rows[id].place];
      Open(s, pin, ids).(exports := s.exports[pin := Export(ids, lock, present, false)])
  }

  function Locked(rows: Rows, ids: seq<SegmentId>): Rows
  {
    map id | id in rows :: if id in ids then rows[id].(locked := true) else rows[id]
  }

  function PublishExport(s: Nvr, pin: PinId, cancelled: bool): Nvr
  {
    if pin !in s.exports || s.exports[pin].published || cancelled then s
    else
      var e := s.exports[pin];
      s.(exports := s.exports[pin := e.(published := true)],
         rows := if e.lock then Locked(s.rows, e.sources) else s.rows)
  }

  function Next(s: Nvr, step: Step): Nvr
  {
    match step
    case Tick(now) => if now < s.now then s else s.(now := now)
    case AddSegment(id, row, file) => Add(s, id, row, file)
    case SetLock(id, locked) =>
      if id !in s.rows || s.rows[id].integrity == Deleted then s else WithRow(s, id, s.rows[id].(locked := locked))
    case OpenPin(pin, ids) => if pin in s.exports then s else Open(s, pin, ids)
    case ClosePin(pin) => Close(s, pin)
    case CreateLease(lease, id, ttl, owner) => Borrow(s, lease, id, ttl, owner)
    case ReleaseLease(lease, owner) =>
      if lease !in s.leases || s.leases[lease].owner != owner then s else s.(leases := s.leases - {lease})
    case ExpireLeases => s.(leases := Unexpired(s.leases, s.now))
    case DeleteSegment(id, restored) => Delete(s, id, restored)
    case RetentionStart => if s.sweep.Some? then s else s.(sweep := Some(s.rows))
    case RetentionRemove(id, resolvable) => Remove(s, id, resolvable)
    case RetentionEnd => s.(sweep := None)
    case Migrate(id, target, copied, unlinked) => Move(s, id, target, copied, unlinked)
    case MarkCorrupt(id) => if id !in s.rows then s else WithRow(s, id, s.rows[id].(integrity := Corrupt))
    case Resolve(pin, ids, lock) => ResolveSources(s, pin, ids, lock)
    case Publish(pin, cancelled) => PublishExport(s, pin, cancelled)
    case Restart =>
      s.(readers := map[], leases := map[], pins := map[], sweep := None,
         exports := map e | e in s.exports && s.exports[e].published :: s.exports[e])
  }

  function Run(s: Nvr, steps: seq<Step>): Nvr
  {
    if steps == [] then s else Next(Run(s, steps[..|steps| - 1]), steps[|steps| - 1])
  }

  // ---------- The invariant ----------

  // How often the open pins name each segment.
  ghost function Held(pins: map<PinId, seq<SegmentId>>, open: set<PinId>): multiset<SegmentId>
    requires open <= pins.Keys
  {
    if open == {} then multiset{} else var p :| p in open; multiset(pins[p]) + Held(pins, open - {p})
  }

  lemma {:induction false} HeldStep(pins: map<PinId, seq<SegmentId>>, open: set<PinId>, p: PinId)
    requires open <= pins.Keys && p in open
    ensures Held(pins, open) == multiset(pins[p]) + Held(pins, open - {p})
    decreases |open|
  {
    var q :| q in open && Held(pins, open) == multiset(pins[q]) + Held(pins, open - {q});
    if q != p {
      HeldStep(pins, open - {q}, p);
      HeldStep(pins, open - {p}, q);
      assert open - {q} - {p} == open - {p} - {q};
    }
  }

  lemma {:induction false} HeldFrame(pins: map<PinId, seq<SegmentId>>, other: map<PinId, seq<SegmentId>>,
                                     open: set<PinId>)
    requires open <= pins.Keys && open <= other.Keys
    requires forall p :: p in open ==> pins[p] == other[p]
    ensures Held(pins, open) == Held(other, open)
    decreases |open|
  {
    if open != {} {
      var p :| p in open;
      HeldStep(pins, open, p);
      HeldStep(other, open, p);
      HeldFrame(pins, other, open - {p});
    }
  }

  // The reader counters are exactly the open pins.
  ghost predicate ReadersOk(readers: Readers, pins: map<PinId, seq<SegmentId>>)
  {
    forall id :: Count(readers, id) == Held(pins, pins.Keys)[id] && (id in readers ==> readers[id] > 0)
  }

  ghost predicate KeysOk(rows: Rows)
  {
    forall x, y :: x in rows && y in rows && x != y ==> rows[x].place.key != rows[y].place.key
  }

  // While retention sweeps, nothing moves.
  ghost predicate SweepOk(s: Nvr)
  {
    s.sweep.Some? ==>
      forall id :: id in s.sweep.value ==> id in s.rows && s.sweep.value[id].place == s.rows[id].place
  }

  // The segment's file is where the row says, and the row is not deleted.
  predicate Present(s: Nvr, id: SegmentId)
  {
    id in s.rows && s.rows[id].integrity != Deleted && s.rows[id].place in s.files
  }

  function FileOf(s: Nvr, id: SegmentId): File
    requires Present(s, id)
  {
    s.files[s.rows[id].place]
  }

  // A running export holds pins on all its sources, and none of the files it
  // found has gone or changed.
  ghost predicate ExportOk(s: Nvr, e: PinId)
    requires e in s.exports
  {
    var x := s.exports[e];
    !x.published ==>
      && e in s.pins && s.pins[e] == x.sources
      && (forall id :: id in x.sources ==> id in s.rows && s.rows[id].integrity != Deleted)
      && forall id :: id in x.present ==> id in x.sources && Present(s, id) && FileOf(s, id) == x.present[id]
  }

  ghost predicate Inv(s: Nvr)
  {
    ReadersOk(s.readers, s.pins) && KeysOk(s.rows) && SweepOk(s) && forall e :: e in s.exports ==> ExportOk(s, e)
  }

  lemma InitInv()
    ensures Inv(Init())
  {
  }

  // ---------- Preservation ----------

  lemma OpenKeepsReaders(s: Nvr, pin: PinId, ids: seq<SegmentId>)
    requires ReadersOk(s.readers, s.pins)
    ensures ReadersOk(Open(s, pin, ids).readers, Open(s, pin, ids).pins)
  {
    var t := Open(s, pin, ids);
    if t != s {
      HeldStep(t.pins, t.pins.Keys, pin);
      assert t.pins.Keys - {pin} == s.pins.Keys;
      HeldFrame(s.pins, t.pins, s.pins.Keys);
    }
  }

  lemma CloseKeepsReaders(s: Nvr, pin: PinId)
    requires ReadersOk(s.readers, s.pins)
    ensures ReadersOk(Close(s, pin).readers, Close(s, pin).pins)
  {
    if pin in s.pins {
      var t := Close(s, pin);
      HeldStep(s.pins, s.pins.Keys, pin);
      assert t.pins.Keys == s.pins.Keys - {pin};
      HeldFrame(s.pins, t.pins, t.pins.Keys);
    }
  }

  // A segment named by an open pin is in use.
  lemma PinnedIsInUse(s: Nvr, pin: PinId, id: SegmentId)
    requires ReadersOk(s.readers, s.pins) && pin in s.pins && id in s.pins[pin]
    ensures Count(s.readers, id) > 0
  {
    HeldStep(s.pins, s.pins.Keys, pin);
    assert id in multiset(s.pins[pin]);
  }

  predicate Protected(s: Nvr, id: SegmentId)
  {
    && id in s.rows
    && (s.rows[id].locked || Count(s.readers, id) > 0
        || exists l :: l in s.leases && s.leases[l].segment == id && s.leases[l].expiry > s.now)
  }

  // The segment's file, place and readability, carried from one state to
  // the next.
  predicate Kept(s: Nvr, t: Nvr, id: SegmentId)
    requires Present(s, id)
  {
    Present(t, id) && FileOf(t, id) == FileOf(s, id) && t.rows[id].place == s.rows[id].place
  }

  lemma DeleteKeeps(s: Nvr, x: SegmentId, restored: bool, id: SegmentId)
    requires KeysOk(s.rows) && Present(s, id) && Protected(s, id)
    ensures Kept(s, Delete(s, x, restored), id)
  {
    if x == id && !s.rows[id].locked && Count(s.readers, id) == 0 {
      var l :| l in s.leases && s.leases[l].segment == id && s.leases[l].expiry > s.now;
      var live := Unexpired(s.leases, s.now);
      assert l in live && live[l].segment == id;
    }
  }

  lemma RemoveKeeps(s: Nvr, x: SegmentId, resolvable: bool, id: SegmentId)
    requires KeysOk(s.rows) && SweepOk(s) && Present(s, id) && Protected(s, id)
    ensures Kept(s, Remove(s, x, resolvable), id)
  {
  }

  // The rows after a migration: at most the segment's own row is new, and it
  // keeps its key.
  predicate MovedRows(rows: Rows, after: Rows, x: SegmentId)
  {
    && x in rows && after.Keys == rows.Keys && after[x].place.key == rows[x].place.key
    && forall id :: id in rows && id != x ==> after[id] == rows[id]
  }

  predicate SameFile(files: Files, after: Files, p: Place)
  {
    (p in files <==> p in after) && (p in files ==> after[p] == files[p])
  }

  lemma MovesRow(s: Nvr, x: SegmentId, target: string, copied: File, unlinked: bool)
    ensures var t := Move(s, x, target, copied, unlinked);
      t.sweep == s.sweep && (if CanMove(s, x, target) then MovedRows(s.rows, t.rows, x) else t == s)
  {
    hide CopyIsGood; hide MovedFiles; hide Frame;
  }

  lemma MovesFile(s: Nvr, x: SegmentId, target: string, copied: File, unlinked: bool, p: Place)
    requires x in s.rows ==> p.key != s.rows[x].place.key
    ensures SameFile(s.files, Move(s, x, target, copied, unlinked).files, p)
  {
    hide InUse; hide CopyIsGood; hide MovedRow; hide Frame;
  }

  lemma MoveKeeps(s: Nvr, x: SegmentId, target: string, copied: File, unlinked: bool, id: SegmentId)
    requires KeysOk(s.rows) && Present(s, id) && Protected(s, id)
    ensures Kept(s, Move(s, x, target, copied, unlinked), id)
  {
    hide Move; hide InUse; hide Protected;
    MovesRow(s, x, target, copied, unlinked);
    ProtectedIsInUse(s, id);
    if CanMove(s, x, target) {
      assert s.rows[x].place.key != s.rows[id].place.key;
      MovesFile(s, x, target, copied, unlinked, s.rows[id].place);
    }
  }

  lemma ProtectedIsInUse(s: Nvr, id: SegmentId)
    requires Protected(s, id)
    ensures s.rows[id].locked || InUse(s, id)
  {
  }

  lemma AddKeeps(s: Nvr, x: SegmentId, row: Segment, file: File, id: SegmentId)
    requires Present(s, id)
    ensures Kept(s, Add(s, x, row, file), id)
  {
  }

  // No step of any thread removes, moves or rewrites the file of a segment
  // that is locked, pinned or under a live lease.
  lemma ProtectedFileSurvives(s: Nvr, step: Step, id: SegmentId)
    requires Inv(s) && Present(s, id) && Protected(s, id)
    ensures Kept(s, Next(s, step), id)
  {
    hide Delete; hide Remove; hide Move; hide Add; hide ReadersOk; hide ExportOk; hide Kept;
    match step
    case DeleteSegment(x, restored) => DeleteKeeps(s, x, restored, id);
    case RetentionRemove(x, resolvable) => RemoveKeeps(s, x, resolvable, id);
    case Migrate(x, target, copied, unlinked) => MoveKeeps(s, x, target, copied, unlinked, id);
    case AddSegment(x, row, file) => AddKeeps(s, x, row, file, id);
    case _ => QuietKeeps(s, step, id);
  }

  // The other steps touch no file and delete no row.
  lemma QuietKeeps(s: Nvr, step: Step, id: SegmentId)
    requires !step.DeleteSegment? && !step.RetentionRemove? && !step.Migrate? && !step.AddSegment?
    requires Present(s, id)
    ensures Kept(s, Next(s, step), id)
  {
    hide AllVisible; hide Pinned; hide Unpinned; hide Frame; hide SamePlaces; hide Unexpired; hide OwnedBy;
  }

  lemma StepKeepsReaders(s: Nvr, step: Step)
    requires ReadersOk(s.readers, s.pins)
    ensures ReadersOk(Next(s, step).readers, Next(s, step).pins)
  {
    hide Delete; hide Remove; hide Move; hide Add; hide Borrow; hide Open; hide Close; hide ReadersOk;
    match step
    case OpenPin(pin, ids) => OpenKeepsReaders(s, pin, ids);
    case Resolve(pin, ids, lock) => OpenKeepsReaders(s, pin, ids);
    case ClosePin(pin) => CloseKeepsReaders(s, pin);
    case Restart => InitInv();
    case _ =>
  }

  lemma OthersKeepPlaces(s: Nvr, step: Step)
    requires !step.Migrate? && !step.AddSegment?
    ensures SamePlaces(s.rows, Next(s, step).rows)
  {
    hide Delete; hide Remove; hide Borrow; hide AllVisible; hide Pinned; hide Unpinned; hide SamePlaces; hide Locked;
    hide Unexpired; hide Frame;
    PlacesStay(s.rows);
    match step
    case SetLock(id, locked) =>
      if id in s.rows {
        RowKeepsPlace(s.rows, id, s.rows[id].(locked := locked));
      }
    case MarkCorrupt(id) =>
      if id in s.rows {
        RowKeepsPlace(s.rows, id, s.rows[id].(integrity := Corrupt));
      }
    case Publish(pin, _) =>
      if pin in s.exports {
        LockingKeepsPlaces(s.rows, s.exports[pin].sources);
      }
    case _ =>
  }

  lemma PlacesStay(rows: Rows)
    ensures SamePlaces(rows, rows)
  {
  }

  lemma RowKeepsPlace(rows: Rows, id: SegmentId, row: Segment)
    requires id in rows && row.place == rows[id].place
    ensures SamePlaces(rows, rows[id := row])
  {
  }

  lemma LockingKeepsPlaces(rows: Rows, ids: seq<SegmentId>)
    ensures SamePlaces(rows, Locked(rows, ids))
  {
  }

  lemma MoveKeepsKeys(s: Nvr, id: SegmentId, target: string, copied: File, unlinked: bool)
    requires KeysOk(s.rows) && SweepOk(s)
    ensures KeysOk(Move(s, id, target, copied, unlinked).rows) && SweepOk(Move(s, id, target, copied, unlinked))
  {
    hide Move; hide InUse;
    MovesRow(s, id, target, copied, unlinked);
  }

  lemma AddKeepsKeys(s: Nvr, id: SegmentId, row: Segment, file: File)
    requires KeysOk(s.rows) && SweepOk(s)
    ensures KeysOk(Add(s, id, row, file).rows) && SweepOk(Add(s, id, row, file))
  {
  }

  lemma PlacesKeepKeys(s: Nvr, t: Nvr)
    requires KeysOk(s.rows) && SweepOk(s) && SamePlaces(s.rows, t.rows)
    requires t.sweep == s.sweep || t.sweep == None || t.sweep == Some(s.rows)
    ensures KeysOk(t.rows) && SweepOk(t)
  {
  }

  lemma StepKeepsKeys(s: Nvr, step: Step)
    requires KeysOk(s.rows) && SweepOk(s)
    ensures KeysOk(Next(s, step).rows) && SweepOk(Next(s, step))
  {
    hide Move; hide Add; hide KeysOk; hide SweepOk; hide SamePlaces;
    if step.Migrate? {
      MoveKeepsKeys(s, step.id, step.target, step.copied, step.unlinked);
    } else if step.AddSegment? {
      AddKeepsKeys(s, step.id, step.row, step.file);
    } else {
      OthersKeepPlaces(s, step);
      SweepFrame(s, step);
      hide Next;
      PlacesKeepKeys(s, Next(s, step));
    }
  }

  lemma SweepFrame(s: Nvr, step: Step)
    ensures Next(s, step).sweep == s.sweep || Next(s, step).sweep == None
            || (step.RetentionStart? && Next(s, step).sweep == Some(s.rows))
  {
    hide Delete; hide Remove; hide Move; hide Add; hide Borrow;
  }

  lemma StepKeepsExports(s: Nvr, step: Step, e: PinId)
    requires Inv(s) && e in Next(s, step).exports
    ensures ExportOk(Next(s, step), e)
  {
    hide Next; hide KeysOk; hide SweepOk; hide ReadersOk;
    var t := Next(s, step);
    if !t.exports[e].published {
      ExportsFrame(s, step, e);
    }
    if !t.exports[e].published && e in s.exports {
      var x := t.exports[e];
      assert ExportOk(s, e);
      forall id | id in x.sources ensures id in t.rows && t.rows[id].integrity != Deleted {
        PinnedIsInUse(s, e, id);
        SourceRowSurvives(s, step, id);
      }
      forall id | id in x.present ensures Present(t, id) && FileOf(t, id) == x.present[id] {
        PinnedIsInUse(s, e, id);
        ProtectedFileSurvives(s, step, id);
      }
    }
  }

  lemma ResolveOk(s: Nvr, pin: PinId, ids: seq<SegmentId>, lock: bool)
    requires pin !in s.exports && pin in ResolveSources(s, pin, ids, lock).exports
    ensures ExportOk(ResolveSources(s, pin, ids, lock), pin)
  {
    hide Pinned;
    assert AllVisible(s.rows, ids);
  }

  // A running export is new with its pins, or unchanged with its pins.
  lemma ExportsFrame(s: Nvr, step: Step, e: PinId)
    requires Inv(s) && e in Next(s, step).exports && !Next(s, step).exports[e].published
    ensures e in s.exports ==> (s.exports[e] == Next(s, step).exports[e]
                                && e in Next(s, step).pins && Next(s, step).pins[e] == s.pins[e])
    ensures e !in s.exports ==> ExportOk(Next(s, step), e)
  {
    hide Delete; hide Remove; hide Move; hide Add; hide Borrow; hide KeysOk; hide SweepOk; hide ReadersOk;
    hide AllVisible; hide Pinned; hide Unpinned; hide SamePlaces; hide Locked;
    if e in s.exports {
      assert ExportOk(s, e);
    } else {
      hide ExportOk;
      assert step.Resolve? && step.pin == e;
      ResolveOk(s, e, step.ids, step.lock);
    }
  }

  predicate Recorded(s: Nvr, id: SegmentId) { id in s.rows && s.rows[id].integrity != Deleted }

  lemma SourceRowSurvives(s: Nvr, step: Step, id: SegmentId)
    requires Recorded(s, id) && Count(s.readers, id) > 0
    ensures Recorded(Next(s, step), id)
  {
    hide Delete; hide Remove; hide Move; hide Add; hide Borrow; hide AllVisible; hide Pinned; hide Unpinned; hide Count;
    match step
    case DeleteSegment(x, restored) => DeleteKeepsReadRow(s, x, restored, id);
    case RetentionRemove(x, resolvable) => RemoveKeepsReadRow(s, x, resolvable, id);
    case Migrate(x, target, copied, unlinked) => MoveKeepsRow(s, x, target, copied, unlinked, id);
    case AddSegment(x, row, file) => AddKeepsRow(s, x, row, file, id);
    case CreateLease(lease, x, ttl, owner) => BorrowKeepsRow(s, lease, x, ttl, owner, id);
    case _ =>
  }

  lemma DeleteKeepsReadRow(s: Nvr, x: SegmentId, restored: bool, id: SegmentId)
    requires Recorded(s, id) && Count(s.readers, id) > 0
    ensures Recorded(Delete(s, x, restored), id)
  {
    hide Frame; hide SamePlaces; hide Leased;
  }

  lemma RemoveKeepsReadRow(s: Nvr, x: SegmentId, resolvable: bool, id: SegmentId)
    requires Recorded(s, id) && Count(s.readers, id) > 0
    ensures Recorded(Remove(s, x, resolvable), id)
  {
    hide Frame; hide SamePlaces; hide Leased;
  }

  lemma MoveKeepsRow(s: Nvr, x: SegmentId, target: string, copied: File, unlinked: bool, id: SegmentId)
    requires Recorded(s, id)
    ensures Recorded(Move(s, x, target, copied, unlinked), id)
  {
    hide Frame; hide InUse; hide CopyIsGood; hide MovedFiles;
  }

  lemma AddKeepsRow(s: Nvr, x: SegmentId, row: Segment, file: File, id: SegmentId)
    requires Recorded(s, id)
    ensures Recorded(Add(s, x, row, file), id)
  {
    hide Frame;
  }

  lemma BorrowKeepsRow(s: Nvr, lease: LeaseId, x: SegmentId, ttl: nat, owner: string, id: SegmentId)
    requires Recorded(s, id)
    ensures Recorded(Borrow(s, lease, x, ttl, owner), id)
  {
    hide Frame; hide SamePlaces;
  }

  lemma StepKeepsInv(s: Nvr, step: Step)
    requires Inv(s)
    ensures Inv(Next(s, step))
  {
    hide Next; hide KeysOk; hide SweepOk; hide ReadersOk; hide ExportOk;
    StepKeepsReaders(s, step);
    StepKeepsKeys(s, step);
    forall e | e in Next(s, step).exports ensures ExportOk(Next(s, step), e) {
      StepKeepsExports(s, step, e);
    }
  }

  lemma {:induction false} RunKeepsInv(steps: seq<Step>)
    ensures Inv(Run(Init(), steps))
  {
    if steps == [] {
      InitInv();
    } else {
      RunKeepsInv(steps[..|steps| - 1]);
      StepKeepsInv(Run(Init(), steps[..|steps| - 1]), steps[|steps| - 1]);
    }
  }

  // ---------- Over all runs ----------

  // Reader counters equal the open pins at every moment.
  lemma ReadersArePins(steps: seq<Step>, id: SegmentId)
    ensures var s := Run(Init(), steps);
      Count(s.readers, id) == Held(s.pins, s.pins.Keys)[id] && (id in s.readers <==> id in Held(s.pins, s.pins.Keys))
  {
    RunKeepsInv(steps);
  }

  // Publishing an export finds every source row still recorded and every
  // source file it resolved still there and unchanged; a locking export
  // leaves all its sources locked.
  lemma PublishedExportKeepsSources(steps: seq<Step>, pin: PinId)
    requires var s := Run(Init(), steps); pin in s.exports && !s.exports[pin].published
    ensures var s := Run(Init(), steps);
      var e := s.exports[pin];
      var t := Next(s, Publish(pin, false));
      && pin in t.exports && t.exports[pin] == e.(published := true)
      && (forall id :: id in e.sources ==> id in t.rows && t.rows[id].integrity != Deleted
                                           && (e.lock ==> t.rows[id].locked))
      && (forall id :: id in e.present ==> Present(t, id) && FileOf(t, id) == e.present[id])
  {
    RunKeepsInv(steps);
    hide ReadersOk; hide KeysOk; hide SweepOk;
    var s := Run(Init(), steps);
    assert ExportOk(s, pin);
  }

  predicate NoUnlock(steps: seq<Step>, id: SegmentId)
  {
    forall i :: 0 <= i < |steps| ==> steps[i] != SetLock(id, false)
  }

  // Locked evidence stays, whatever runs, until somebody unlocks it.
  lemma {:induction false} LockedEvidenceStays(s: Nvr, steps: seq<Step>, id: SegmentId)
    requires Inv(s) && Present(s, id) && s.rows[id].locked && NoUnlock(steps, id)
    ensures Inv(Run(s, steps)) && Kept(s, Run(s, steps), id) && Run(s, steps).rows[id].locked
  {
    if steps != [] {
      hide Inv;
      var before := steps[..|steps| - 1];
      LockedEvidenceStays(s, before, id);
      var t := Run(s, before);
      var step := steps[|steps| - 1];
      StepKeepsInv(t, step);
      ProtectedFileSurvives(t, step, id);
      LockStays(t, step, id);
    }
  }

  lemma LockStays(s: Nvr, step: Step, id: SegmentId)
    requires id in s.rows && s.rows[id].locked && step != SetLock(id, false)
    ensures id in Next(s, step).rows && Next(s, step).rows[id].locked
  {
    hide AllVisible; hide Pinned; hide Unpinned; hide SamePlaces; hide Delete; hide Remove; hide Move; hide Add;
    hide Borrow;
  }
}

module SegmentService {
  import opened Segments

  lemma PinnedNone(readers: Readers)
    ensures Pinned(readers, []) == readers
  {
  }

  lemma PinnedOneMore(readers: Readers, ids: seq<SegmentId>, id: SegmentId)
    ensures Pinned(readers, ids + [id]) == Pinned(readers, ids)[id := Count(Pinned(readers, ids), id) + 1]
  {
  }

  lemma UnpinnedNone(readers: Readers)
    requires forall id :: id in readers ==> readers[id] > 0
    ensures Unpinned(readers, []) == readers
  {
  }

  lemma UnpinnedOneMore(readers: Readers, ids: seq<SegmentId>, id: SegmentId)
    ensures var before := Unpinned(readers, ids);
      Unpinned(readers, ids + [id]) ==
      if id in before && before[id] > 1 then before[id := before[id] - 1] else before - {id}
  {
  }

  // The parts of NvrService behind reader_lock. `now` is the monotonic clock
  // reading a call makes.
  class NvrService {
    var rows: Rows
    var files: Files
    var activeReaders: Readers
    var playbackLeases: Leases

    constructor ()
      ensures rows == map[] && files == map[] && activeReaders == map[] && playbackLeases == map[]
    {
      rows, files, activeReaders, playbackLeases := map[], map[], map[], map[];
    }

    // This object's part of the shared state; the open blocks, exports and
    // the sweep belong to the threads that run them.
    predicate Agrees(s: Nvr)
      reads this
    {
      rows == s.rows && files == s.files && activeReaders == s.readers && playbackLeases == s.leases
    }

    predicate SegmentActive(id: SegmentId)
      reads this
      ensures forall s :: Agrees(s) ==> SegmentActive(id) == InUse(s, id)
    {
      (id in activeReaders && activeReaders[id] > 0)
      || exists l :: l in playbackLeases && playbackLeases[l].segment == id
    }

    method SetLock(id: SegmentId, locked: bool, ghost s: Nvr) returns (ok: bool)
      requires Agrees(s)
      modifies this`rows
      ensures Agrees(Next(s, Step.SetLock(id, locked)))
      ensures ok <==> id in old(rows) && old(rows)[id].integrity != Deleted
    {
      ok := id in rows && rows[id].integrity != Deleted;
      if ok {
        rows := rows[id := rows[id].(locked := locked)];
      }
    }

    method ExpirePlaybackLeases(now: int)
      modifies this`playbackLeases
      ensures playbackLeases == Unexpired(old(playbackLeases), now)
      ensures playbackLeases.Keys <= old(playbackLeases).Keys
    {
      ghost var before := playbackLeases;
      var left := playbackLeases.Keys;
      while left != {}
        invariant left <= playbackLeases.Keys
        invariant forall l :: l in playbackLeases <==>
                    l in left || (l in before && l !in left && before[l].expiry > now)
        invariant forall l :: l in playbackLeases ==> l in before && playbackLeases[l] == before[l]
        decreases |left|
      {
        var l :| l in left;
        left := left - {l};
        if playbackLeases[l].expiry <= now {
          playbackLeases := playbackLeases - {l};
        }
      }
      assert playbackLeases == Unexpired(before, now);
    }

    method LookUp(ids: seq<SegmentId>) returns (ok: bool)
      ensures ok <==> AllVisible(rows, ids)
    {
      for i := 0 to |ids|
        invariant forall j :: 0 <= j < i ==> Visible(rows, ids[j])
      {
        if ids[i] !in rows || rows[ids[i]].integrity == Deleted || rows[ids[i]].integrity == Missing {
          assert ids[i] in ids;
          return false;
        }
      }
      ok := true;
    }

    // Entering `with pin_segments(ids)`: first every id is looked up, then
    // every count goes up.
    method PinSegments(ids: seq<SegmentId>) returns (ok: bool)
      modifies this`activeReaders
      ensures ok <==> AllVisible(rows, ids)
      ensures activeReaders == if ok then Pinned(old(activeReaders), ids) else old(activeReaders)
    {
      hide AllVisible; hide Pinned;
      ok := LookUp(ids);
      if ok {
        PinnedNone(activeReaders);
        for i := 0 to |ids|
          invariant activeReaders == Pinned(old(activeReaders), ids[..i])
        {
          assert ids[..i + 1] == ids[..i] + [ids[i]];
          PinnedOneMore(old(activeReaders), ids[..i], ids[i]);
          activeReaders := activeReaders[ids[i] := Count(activeReaders, ids[i]) + 1];
        }
        assert ids[..|ids|] == ids;
      }
    }

    // Leaving the block. Counters never stay at zero.
    method UnpinSegments(ids: seq<SegmentId>)
      requires forall id :: id in activeReaders ==> activeReaders[id] > 0
      modifies this`activeReaders
      ensures activeReaders == Unpinned(old(activeReaders), ids)
    {
      hide Unpinned;
      UnpinnedNone(activeReaders);
      for i := 0 to |ids|
        invariant activeReaders == Unpinned(old(activeReaders), ids[..i])
      {
        assert ids[..i + 1] == ids[..i] + [ids[i]];
        UnpinnedOneMore(old(activeReaders), ids[..i], ids[i]);
        var id := ids[i];
        var current: int := if id in activeReaders then activeReaders[id] else 1;
        var remaining := current - 1;
        if remaining > 0 {
          activeReaders := activeReaders[id := remaining];
        } else {
          activeReaders := activeReaders - {id};
        }
      }
      assert ids[..|ids|] == ids;
    }

    method CreatePlaybackLease(lease: LeaseId, id: SegmentId, ttl: nat, owner: string, now: int, ghost s: Nvr)
      returns (ok: bool)
      requires Agrees(s) && s.now == now && lease !in playbackLeases
      modifies this`playbackLeases
      ensures Agrees(Next(s, CreateLease(lease, id, ttl, owner))) && (ok <==> lease in playbackLeases)
    {
      hide Unexpired; hide Frame; hide SamePlaces; hide OwnedBy;
      ExpirePlaybackLeases(now);
      if id !in rows || rows[id].integrity == Deleted || rows[id].integrity == Missing {
        return false;
      }
      if |playbackLeases| >= MAX_LEASES || |OwnedBy(playbackLeases, owner)| >= MAX_LEASES_PER_OWNER {
        return false;
      }
      playbackLeases := playbackLeases[lease := Lease(id, now + ttl, owner)];
      ok := true;
    }

    method ReleasePlaybackLease(lease: LeaseId, owner: string, ghost s: Nvr) returns (ok: bool)
      requires Agrees(s)
      modifies this`playbackLeases
      ensures Agrees(Next(s, ReleaseLease(lease, owner)))
      ensures ok <==> lease in old(playbackLeases) && old(playbackLeases)[lease].owner == owner
    {
      ok := lease in playbackLeases && playbackLeases[lease].owner == owner;
      if ok {
        playbackLeases := playbackLeases - {lease};
      }
    }

    // `restored` says whether the archive brought a missing file back into
    // its cache, where it is then removed instead.
    method Delete(id: SegmentId, now: int, restored: bool, ghost s: Nvr)
      requires Agrees(s) && s.now == now
      modifies this`rows, this`files, this`playbackLeases
      ensures Agrees(Next(s, DeleteSegment(id, restored)))
    {
      hide Unexpired; hide Frame; hide SamePlaces; hide SegmentActive;
      if id !in rows || rows[id].integrity == Deleted || rows[id].integrity == Missing || rows[id].locked {
        return;
      }
      ExpirePlaybackLeases(now);
      if SegmentActive(id) {
        return;
      }
      var place := rows[id].place;
      if place !in files && !restored {
        return;
      }
      files := files - {place};
      rows := rows[id := rows[id].(integrity := Deleted, size := 0)];
    }

    // Retention's second look at one snapshot row. True when the row was
    // deleted.
    method RetentionDelete(id: SegmentId, row: Segment, resolvable: bool, ghost s: Nvr) returns (deleted: bool)
      requires Agrees(s) && s.sweep.Some? && id in s.sweep.value && s.sweep.value[id] == row
      modifies this`rows, this`files
      ensures Agrees(Next(s, RetentionRemove(id, resolvable)))
      ensures deleted <==> resolvable && !InUse(s, id) && id in old(rows) && !old(rows)[id].locked
                           && old(rows)[id].integrity != Deleted
    {
      deleted := false;
      if SegmentActive(id) || id !in rows || rows[id].locked || rows[id].integrity == Deleted {
        return;
      }
      if !resolvable {
        rows := rows[id := rows[id].(integrity := Missing)];
        return;
      }
      files := files - {row.place};
      rows := rows[id := rows[id].(integrity := Deleted, size := 0)];
      deleted := true;
    }

    // The publication transaction of an export: the evidence locks are set
    // row by row.
    method PublishEvidence(pin: PinId, sources: seq<SegmentId>, lock: bool, cancelled: bool, ghost s: Nvr)
      returns (published: bool)
      requires Agrees(s) && pin in s.exports && !s.exports[pin].published
      requires s.exports[pin].sources == sources && s.exports[pin].lock == lock
      modifies this`rows
      ensures Agrees(Next(s, Publish(pin, cancelled)))
      ensures published <==> !cancelled
    {
      published := !cancelled;
      if published && lock {
        for i := 0 to |sources|
          invariant rows == Locked(old(rows), sources[..i])
        {
          assert sources[..i + 1] == sources[..i] + [sources[i]];
          var id := sources[i];
          if id in rows {
            rows := rows[id := rows[id].(locked := true)];
          }
        }
        assert sources[..|sources|] == sources;
      }
    }
  }
}
