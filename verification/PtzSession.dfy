// Who may talk to a PTZ camera: sessions whose lock entries come and go
// (camera/camera_registry.py, ptz_session).

module PtzSessions {
  import opened Options

  type Thread = nat
  type Camera = string
  type EntryId = nat

  // One entry of PTZ_SESSIONS: its lock's holder and its counters.
  datatype Entry = Entry(users: nat, stops: nat, holder: Option<Thread>)

  // Where a thread is in the context manager: waiting for the lock, past the
  // acquisition, inside the block, on its way out with or without the lock.
  datatype Place = Waiting | Acquired | Inside | Aborting | Leaving
  datatype Visit = Visit(camera: Camera, entry: EntryId, stopping: bool, place: Place)

  // `table` is PTZ_SESSIONS; `entries` are its dictionaries by identity, which
  // threads keep referring to after the table has dropped them.
  datatype World = World(table: map<Camera, EntryId>, entries: map<EntryId, Entry>, nextId: EntryId,
                         visits: map<Thread, Visit>)

  datatype Step =
    | Enter(thread: Thread, camera: Camera, stopping: bool)
    | Acquire(thread: Thread)
    | TimeOut(thread: Thread)
    | Check(thread: Thread)
    | Release(thread: Thread)
    | Leave(thread: Thread)

  function Init(): World { World(map[], map[], 0, map[]) }

  // setdefault: the camera's entry, created when it has none.
  function Looked(w: World, camera: Camera): World
  {
    if camera in w.table then w
    else w.(table := w.table[camera := w.nextId], entries := w.entries[w.nextId := Entry(0, 0, None)],
            nextId := w.nextId + 1)
  }

  function Entered(w: World, t: Thread, camera: Camera, stopping: bool): World
  {
    var l := Looked(w, camera);
    var id := l.table[camera];
    if t in w.visits || id !in l.entries then w
    else
      var e := l.entries[id];
      if !stopping && e.stops > 0 then l
      else l.(entries := l.entries[id := e.(users := e.users + 1, stops := e.stops + if stopping then 1 else 0)],
              visits := l.visits[t := Visit(camera, id, stopping, Waiting)])
  }

  function At(w: World, t: Thread, place: Place): World
    requires t in w.visits
  {
    w.(visits := w.visits[t := w.visits[t].(place := place)])
  }

  predicate In(w: World, t: Thread, place: Place)
  {
    t in w.visits && w.visits[t].place == place && w.visits[t].entry in w.entries
  }

  // The last guarded block: count the user out, and drop the camera's entry
  // when nobody uses it any more.
  function Left(w: World, t: Thread): World
    requires In(w, t, Leaving)
  {
    var v := w.visits[t];
    var e := w.entries[v.entry];
    var users := if e.users > 0 then e.users - 1 else 0;
    var stops := if v.stopping && e.stops > 0 then e.stops - 1 else e.stops;
    World(if users == 0 then w.table - {v.camera} else w.table,
          w.entries[v.entry := e.(users := users, stops := stops)], w.nextId, w.visits - {t})
  }

  function Next(w: World, step: Step): World
  {
    match step
    case Enter(t, camera, stopping) => Entered(w, t, camera, stopping)
    case Acquire(t) =>
      if !In(w, t, Waiting) || w.entries[w.visits[t].entry].holder.Some? then w
      else
        var id := w.visits[t].entry;
        At(w.(entries := w.entries[id := w.entries[id].(holder := Some(t))]), t, Acquired)
    case TimeOut(t) => if !In(w, t, Waiting) then w else At(w, t, Leaving)
    case Check(t) =>
      if !In(w, t, Acquired) then w
      else At(w, t, if !w.visits[t].stopping && w.entries[w.visits[t].entry].stops > 0 then Aborting else Inside)
    case Release(t) =>
      if !In(w, t, Inside) && !In(w, t, Aborting) then w
      else
        var id := w.visits[t].entry;
        At(w.(entries := w.entries[id := w.entries[id].(holder := None)]), t, Leaving)
    case Leave(t) => if !In(w, t, Leaving) then w else Left(w, t)
  }

  function Run(steps: seq<Step>): World
  {
    if steps == [] then Init() else Next(Run(steps[..|steps| - 1]), steps[|steps| - 1])
  }

  // ---------- The invariant ----------

  function Users(visits: map<Thread, Visit>, camera: Camera): set<Thread>
  {
    set t | t in visits && visits[t].camera == camera
  }

  function Stoppers(visits: map<Thread, Visit>, camera: Camera): set<Thread>
  {
    set t | t in visits && visits[t].camera == camera && visits[t].stopping
  }

  predicate Holding(v: Visit) { v.place.Acquired? || v.place.Inside? || v.place.Aborting? }

  // Every thread in a session of a camera refers to the camera's one entry.
  ghost predicate SharedOk(w: World)
  {
    && (forall c :: c in w.table ==> w.table[c] in w.entries && w.table[c] < w.nextId)
    && (forall c, d :: c in w.table && d in w.table && c != d ==> w.table[c] != w.table[d])
    && (forall t :: t in w.visits ==> w.visits[t].camera in w.table && w.table[w.visits[t].camera] == w.visits[t].entry)
  }

  // Its counters count them.
  ghost predicate CountOk(w: World, c: Camera)
  {
    c in w.table && w.table[c] in w.entries ==>
      var e := w.entries[w.table[c]];
      e.users == |Users(w.visits, c)| > 0 && e.stops == |Stoppers(w.visits, c)|
  }

  ghost predicate CountsOk(w: World) { forall c :: CountOk(w, c) }

  // Its lock is held by a thread that is past the acquisition...
  predicate HeldOk(w: World, c: Camera)
  {
    c in w.table && w.table[c] in w.entries && w.entries[w.table[c]].holder.Some? ==>
      var t := w.entries[w.table[c]].holder.value;
      t in w.visits && w.visits[t].camera == c && Holding(w.visits[t])
  }

  // ... and every such thread holds it.
  predicate HoldsOk(w: World, t: Thread)
  {
    t in w.visits && Holding(w.visits[t]) && w.visits[t].entry in w.entries ==>
      w.entries[w.visits[t].entry].holder == Some(t)
  }

  ghost predicate HolderOk(w: World)
  {
    (forall c :: HeldOk(w, c)) && (forall t :: HoldsOk(w, t))
  }

  ghost predicate Inv(w: World) { SharedOk(w) && CountsOk(w) && HolderOk(w) }

  // A visit that changes place only keeps every count.
  lemma MovingKeepsSets(visits: map<Thread, Visit>, t: Thread, place: Place, c: Camera)
    requires t in visits
    ensures Users(visits[t := visits[t].(place := place)], c) == Users(visits, c)
    ensures Stoppers(visits[t := visits[t].(place := place)], c) == Stoppers(visits, c)
  {
  }

  lemma NewUser(visits: map<Thread, Visit>, t: Thread, v: Visit, c: Camera)
    requires t !in visits
    ensures |Users(visits[t := v], c)| == |Users(visits, c)| + if c == v.camera then 1 else 0
    ensures |Stoppers(visits[t := v], c)| == |Stoppers(visits, c)| + if c == v.camera && v.stopping then 1 else 0
  {
    var users, stoppers := Users(visits, c), Stoppers(visits, c);
    assert Users(visits[t := v], c) == if c == v.camera then users + {t} else users;
    assert Stoppers(visits[t := v], c) == if c == v.camera && v.stopping then stoppers + {t} else stoppers;
  }

  lemma NobodyThere(w: World, camera: Camera)
    requires SharedOk(w) && camera !in w.table
    ensures Users(w.visits, camera) == {} && Stoppers(w.visits, camera) == {}
  {
  }

  lemma LookUpKeepsShared(w: World, camera: Camera)
    requires SharedOk(w) && HolderOk(w)
    ensures SharedOk(Looked(w, camera)) && HolderOk(Looked(w, camera)) && camera in Looked(w, camera).table
  {
    if camera !in w.table {
      assert forall t :: t in w.visits ==> w.visits[t].entry < w.nextId;
      forall c ensures HeldOk(Looked(w, camera), c) {
        assert HeldOk(w, c);
      }
      forall t ensures HoldsOk(Looked(w, camera), t) {
        assert HoldsOk(w, t);
      }
    }
  }

  lemma EnterKeepsShared(w: World, t: Thread, camera: Camera, stopping: bool)
    requires SharedOk(w) && HolderOk(w)
    ensures SharedOk(Entered(w, t, camera, stopping)) && HolderOk(Entered(w, t, camera, stopping))
  {
    hide Looked; hide SharedOk; hide HolderOk;
    LookUpKeepsShared(w, camera);
    LookedKeepsVisits(w, camera);
    var l := Looked(w, camera);
    var v := Entered(w, t, camera, stopping);
    if t !in w.visits && v != l {
      CountedEntry(l, t, camera, stopping);
    }
  }

  // Counting one more user at a camera's entry.
  lemma CountedEntry(l: World, t: Thread, camera: Camera, stopping: bool)
    requires SharedOk(l) && HolderOk(l) && t !in l.visits && camera in l.table && l.table[camera] in l.entries
    ensures var id := l.table[camera]; var e := l.entries[id];
      var v := l.(entries := l.entries[id := e.(users := e.users + 1, stops := e.stops + if stopping then 1 else 0)],
                  visits := l.visits[t := Visit(camera, id, stopping, Waiting)]);
      SharedOk(v) && HolderOk(v)
  {
    var id := l.table[camera];
    var e := l.entries[id];
    var v := l.(entries := l.entries[id := e.(users := e.users + 1, stops := e.stops + if stopping then 1 else 0)],
                visits := l.visits[t := Visit(camera, id, stopping, Waiting)]);
    assert v.entries.Keys == l.entries.Keys;
    forall c ensures HeldOk(v, c) {
      assert HeldOk(l, c);
    }
    forall u ensures HoldsOk(v, u) {
      assert HoldsOk(l, u);
    }
  }

  lemma LookedKeepsVisits(w: World, camera: Camera)
    ensures Looked(w, camera).visits == w.visits
  {
  }

  lemma EnterKeepsCounts(w: World, t: Thread, camera: Camera, stopping: bool, c: Camera)
    requires SharedOk(w) && CountOk(w, c)
    ensures CountOk(Entered(w, t, camera, stopping), c)
  {
    hide Users; hide Stoppers;
    if t !in w.visits {
      NewUser(w.visits, t, Visit(camera, Looked(w, camera).table[camera], stopping, Waiting), c);
      if camera !in w.table {
        NobodyThere(w, camera);
      }
    }
  }

  lemma LeaveKeepsShared(w: World, t: Thread)
    requires SharedOk(w) && HolderOk(w) && In(w, t, Leaving)
    requires Left(w, t).table == w.table
          || forall u :: u in w.visits && u != t ==> w.visits[u].camera != w.visits[t].camera
    ensures SharedOk(Left(w, t)) && HolderOk(Left(w, t))
  {
    var z := Left(w, t);
    assert z.entries.Keys == w.entries.Keys && z.visits == w.visits - {t};
    assert forall id :: id in w.entries ==> z.entries[id].holder == w.entries[id].holder;
    assert SharedOk(z);
    forall c ensures HeldOk(z, c) {
      assert HeldOk(w, c);
    }
    forall u ensures HoldsOk(z, u) {
      assert HoldsOk(w, u);
    }
  }

  // The count that decides whether the entry is dropped is the number of
  // other users.
  lemma LeaveKeepsCounts(w: World, t: Thread, c: Camera)
    requires SharedOk(w) && CountOk(w, c) && In(w, t, Leaving)
    ensures CountOk(Left(w, t), c)
    ensures c == w.visits[t].camera && c !in Left(w, t).table ==> Users(w.visits - {t}, c) == {}
  {
    hide Users; hide Stoppers;
    var rest := w.visits - {t};
    assert rest[t := w.visits[t]] == w.visits;
    NewUser(rest, t, w.visits[t], c);
  }

  lemma LeaveKeepsInv(w: World, t: Thread)
    requires Inv(w) && In(w, t, Leaving)
    ensures Inv(Left(w, t))
  {
    hide CountOk;
    var camera := w.visits[t].camera;
    forall c ensures CountOk(Left(w, t), c) {
      LeaveKeepsCounts(w, t, c);
    }
    LeaveKeepsCounts(w, t, camera);
    forall u | camera !in Left(w, t).table && u in w.visits && u != t ensures w.visits[u].camera != camera {
      assert u !in Users(w.visits - {t}, camera);
    }
    LeaveKeepsShared(w, t);
  }

  // The same entries, with the same threads at them.
  predicate SameEntries(w: World, v: World)
  {
    && v.table == w.table && v.nextId == w.nextId && v.visits.Keys == w.visits.Keys && v.entries.Keys == w.entries.Keys
    && forall t :: t in w.visits ==>
         v.visits[t].camera == w.visits[t].camera && v.visits[t].entry == w.visits[t].entry
  }

  lemma PlaceKeepsEntries(w: World, step: Step)
    requires !step.Enter? && !step.Leave?
    ensures SameEntries(w, Next(w, step))
  {
  }

  lemma SameEntriesShared(w: World, v: World)
    requires SharedOk(w) && SameEntries(w, v)
    ensures SharedOk(v)
  {
  }

  lemma PlaceKeepsShared(w: World, step: Step)
    requires SharedOk(w) && !step.Enter? && !step.Leave?
    ensures SharedOk(Next(w, step))
  {
    hide Next; hide SharedOk; hide SameEntries;
    PlaceKeepsEntries(w, step);
    SameEntriesShared(w, Next(w, step));
  }

  lemma PlaceKeepsHolder(w: World, step: Step)
    requires SharedOk(w) && HolderOk(w) && !step.Enter? && !step.Leave?
    ensures HolderOk(Next(w, step))
  {
    var v := Next(w, step);
    assert HoldsOk(w, step.thread);
    forall c ensures HeldOk(v, c) {
      assert HeldOk(w, c);
    }
    forall u ensures HoldsOk(v, u) {
      assert HoldsOk(w, u);
    }
  }

  lemma PlaceKeepsCounts(w: World, step: Step, c: Camera)
    requires SharedOk(w) && CountOk(w, c) && !step.Enter? && !step.Leave?
    ensures CountOk(Next(w, step), c)
  {
    hide Users; hide Stoppers;
    var t := step.thread;
    if t in w.visits {
      MovingKeepsSets(w.visits, t, Acquired, c);
      MovingKeepsSets(w.visits, t, Inside, c);
      MovingKeepsSets(w.visits, t, Aborting, c);
      MovingKeepsSets(w.visits, t, Leaving, c);
    }
  }

  lemma StepKeepsInv(w: World, step: Step)
    requires Inv(w)
    ensures Inv(Next(w, step))
  {
    hide SharedOk; hide HolderOk; hide CountOk;
    match step
    case Enter(t, camera, stopping) =>
      EnterKeepsShared(w, t, camera, stopping);
      forall c ensures CountOk(Next(w, step), c) {
        EnterKeepsCounts(w, t, camera, stopping, c);
      }
    case Leave(t) =>
      if In(w, t, Leaving) {
        LeaveKeepsInv(w, t);
      }
    case _ =>
      PlaceKeepsShared(w, step);
      PlaceKeepsHolder(w, step);
      forall c ensures CountOk(Next(w, step), c) {
        PlaceKeepsCounts(w, step, c);
      }
  }

  lemma {:induction false} RunKeepsInv(steps: seq<Step>)
    ensures Inv(Run(steps))
  {
    if steps != [] {
      RunKeepsInv(steps[..|steps| - 1]);
      StepKeepsInv(Run(steps[..|steps| - 1]), steps[|steps| - 1]);
    }
  }

  // ---------- Over all runs ----------

  // At most one thread per camera is inside a session.
  lemma OneThreadInside(steps: seq<Step>, t: Thread, u: Thread)
    requires var w := Run(steps); In(w, t, Inside) && In(w, u, Inside) && w.visits[t].camera == w.visits[u].camera
    ensures t == u
  {
    RunKeepsInv(steps);
    assert HoldsOk(Run(steps), t) && HoldsOk(Run(steps), u);
  }

  // A camera has an entry exactly while some thread is in one of its
  // sessions, and all of them share that entry's lock and counters.
  lemma EntriesFollowUsers(steps: seq<Step>, camera: Camera)
    ensures var w := Run(steps);
      && (camera in w.table <==> Users(w.visits, camera) != {})
      && (forall t, u :: t in Users(w.visits, camera) && u in Users(w.visits, camera) ==>
            w.visits[t].entry == w.visits[u].entry == w.table[camera])
      && (camera in w.table ==>
            && w.table[camera] in w.entries
            && w.entries[w.table[camera]].users == |Users(w.visits, camera)|
            && w.entries[w.table[camera]].stops == |Stoppers(w.visits, camera)|)
  {
    RunKeepsInv(steps);
    var w := Run(steps);
    assert CountOk(w, camera);
    if camera in w.table {
      assert |Users(w.visits, camera)| > 0;
    } else {
      NobodyThere(w, camera);
    }
  }

  // A movement gets inside only when, at its check after acquiring, no stop
  // was pending for the camera.
  lemma MovementSeesNoStop(steps: seq<Step>, t: Thread)
    requires var w := Run(steps); In(w, t, Acquired) && !w.visits[t].stopping
    ensures var w := Run(steps);
      In(Next(w, Check(t)), t, Inside) <==> forall u :: u in w.visits && w.visits[u].camera == w.visits[t].camera ==>
                                                          !w.visits[u].stopping
  {
    RunKeepsInv(steps);
    var w := Run(steps);
    var c := w.visits[t].camera;
    assert CountOk(w, c);
    if Stoppers(w.visits, c) == {} {
      forall u | u in w.visits && w.visits[u].camera == c ensures !w.visits[u].stopping {
        assert u !in Stoppers(w.visits, c);
      }
    } else {
      var u :| u in Stoppers(w.visits, c);
    }
  }

  // ---------- What a thread meets ----------

  predicate AtCamera(w: World, t: Thread, camera: Camera) { t in w.visits && w.visits[t].camera == camera }

  lemma NoStoppers(w: World, camera: Camera)
    ensures Stoppers(w.visits, camera) == {} <==> forall u :: AtCamera(w, u, camera) ==> !w.visits[u].stopping
  {
    if Stoppers(w.visits, camera) == {} {
      forall u | AtCamera(w, u, camera) ensures !w.visits[u].stopping {
        assert u !in Stoppers(w.visits, camera);
      }
    } else {
      var u :| u in Stoppers(w.visits, camera);
      assert AtCamera(w, u, camera);
    }
  }

  // A stop is always let in to wait; a movement exactly if no stop is in a
  // session of the camera.
  lemma ArrivalIsLetIn(steps: seq<Step>, t: Thread, camera: Camera, stopping: bool)
    requires t !in Run(steps).visits
    ensures var w := Run(steps); var v := Next(w, Enter(t, camera, stopping));
      && v.visits - {t} == w.visits
      && if stopping || forall u :: AtCamera(w, u, camera) ==> !w.visits[u].stopping
         then In(v, t, Waiting) && AtCamera(v, t, camera) && v.visits[t].stopping == stopping
         else v.visits == w.visits
  {
    RunKeepsInv(steps);
    var w := Run(steps);
    assert CountOk(w, camera);
    NoStoppers(w, camera);
    if camera !in w.table {
      NobodyThere(w, camera);
    }
    hide Users; hide Stoppers; hide HolderOk;
  }

  // A waiting thread gets the lock exactly if no thread of the camera has it;
  // then a stop goes inside.
  lemma WaitingGetsLock(steps: seq<Step>, t: Thread)
    requires In(Run(steps), t, Waiting)
    ensures var w := Run(steps); var v := Next(w, Acquire(t)); var camera := w.visits[t].camera;
      && (if forall u :: AtCamera(w, u, camera) ==> !Holding(w.visits[u])
          then In(v, t, Acquired) && v.visits == w.visits[t := w.visits[t].(place := Acquired)] else v == w)
      && (In(v, t, Acquired) && w.visits[t].stopping ==> In(Next(v, Check(t)), t, Inside))
  {
    RunKeepsInv(steps);
    var w := Run(steps);
    var camera := w.visits[t].camera;
    assert HeldOk(w, camera);
    forall u | AtCamera(w, u, camera) && Holding(w.visits[u]) ensures w.entries[w.visits[t].entry].holder == Some(u) {
      assert HoldsOk(w, u);
    }
  }

  // Whoever leaves the block frees the lock, and then is gone.
  lemma LeavingFrees(steps: seq<Step>, t: Thread)
    requires In(Run(steps), t, Inside) || In(Run(steps), t, Aborting)
    ensures var w := Run(steps); var v := Next(w, Release(t));
      && In(v, t, Leaving) && (forall u :: AtCamera(v, u, w.visits[t].camera) ==> !Holding(v.visits[u]))
      && Next(v, Leave(t)).visits == w.visits - {t}
  {
    RunKeepsInv(steps);
    var w := Run(steps);
    ReleaseMoves(w, t);
    hide Next; hide Run; hide HeldOk; hide CountsOk;
    forall u | AtCamera(w, u, w.visits[t].camera) && u != t ensures !Holding(w.visits[u]) {
      assert HoldsOk(w, t) && HoldsOk(w, u);
    }
    LeaveGoes(Next(w, Release(t)), t);
    assert w.visits[t := w.visits[t].(place := Leaving)] - {t} == w.visits - {t};
  }

  lemma ReleaseMoves(w: World, t: Thread)
    requires In(w, t, Inside) || In(w, t, Aborting)
    ensures In(Next(w, Release(t)), t, Leaving)
    ensures Next(w, Release(t)).visits == w.visits[t := w.visits[t].(place := Leaving)]
  {
  }

  lemma LeaveGoes(w: World, t: Thread)
    requires In(w, t, Leaving)
    ensures Next(w, Leave(t)).visits == w.visits - {t}
  {
  }

  // A thread that waited too long goes without having had the lock.
  lemma TimeOutLeaves(w: World, t: Thread)
    requires In(w, t, Waiting)
    ensures var v := Next(w, TimeOut(t)); In(v, t, Leaving) && v.entries == w.entries && v.table == w.table
  {
  }
}

module PtzGuard {
  import opened PtzSessions
  import opened Options

  // PTZ_SESSIONS with the dictionaries it hands out. Each method is one
  // block under PTZ_SESSION_GUARD, or one operation on an entry's lock.
  class SessionTable {
    var sessions: map<Camera, EntryId>
    var states: map<EntryId, Entry>
    var created: EntryId

    constructor ()
      ensures Agrees(Init())
    {
      sessions, states, created := map[], map[], 0;
    }

    predicate Agrees(w: World)
      reads this
    {
      sessions == w.table && states == w.entries && created == w.nextId
    }

    // The first guarded block; None when a pending stop turns a movement away.
    method Arrive(t: Thread, camera: Camera, stopping: bool, ghost w: World) returns (id: Option<EntryId>)
      requires Agrees(w) && SharedOk(w) && t !in w.visits
      modifies this
      ensures var v := Next(w, Enter(t, camera, stopping));
        && Agrees(v)
        && (id.Some? <==> t in v.visits) && (id.Some? ==> v.visits[t] == Visit(camera, id.value, stopping, Waiting))
    {
      if camera !in sessions {
        sessions, states := sessions[camera := created], states[created := Entry(0, 0, None)];
        created := created + 1;
      }
      var state := sessions[camera];
      if !stopping && states[state].stops != 0 {
        return None;
      }
      states := states[state := states[state].(users := states[state].users + 1)];
      if stopping {
        states := states[state := states[state].(stops := states[state].stops + 1)];
      }
      id := Some(state);
    }

    // The lock's acquire; false when somebody else holds it.
    method TryAcquire(t: Thread, state: EntryId, ghost w: World) returns (acquired: bool)
      requires Agrees(w) && In(w, t, Waiting) && w.visits[t].entry == state
      modifies this`states
      ensures Agrees(Next(w, Acquire(t))) && (acquired <==> In(Next(w, Acquire(t)), t, Acquired))
    {
      acquired := states[state].holder == None;
      if acquired {
        states := states[state := states[state].(holder := Some(t))];
      }
    }

    // The second guarded block: may the thread go inside?
    method Admit(t: Thread, state: EntryId, stopping: bool, ghost w: World) returns (inside: bool)
      requires Agrees(w) && In(w, t, Acquired) && w.visits[t].entry == state && w.visits[t].stopping == stopping
      ensures Agrees(Next(w, Check(t))) && (inside <==> In(Next(w, Check(t)), t, Inside))
    {
      inside := stopping || states[state].stops == 0;
    }

    method Unlock(t: Thread, state: EntryId, ghost w: World)
      requires Agrees(w) && (In(w, t, Inside) || In(w, t, Aborting)) && w.visits[t].entry == state
      modifies this`states
      ensures Agrees(Next(w, Step.Release(t)))
    {
      states := states[state := states[state].(holder := None)];
    }

    // The last guarded block.
    method Depart(t: Thread, camera: Camera, state: EntryId, stopping: bool, ghost w: World)
      requires Agrees(w) && Inv(w) && In(w, t, PtzSessions.Leaving)
      requires w.visits[t] == Visit(camera, state, stopping, PtzSessions.Leaving)
      modifies this
      ensures Agrees(Next(w, Leave(t)))
    {
      assert CountOk(w, camera);
      assert t in Users(w.visits, camera) && (stopping ==> t in Stoppers(w.visits, camera));
      states := states[state := states[state].(users := states[state].users - 1)];
      if stopping {
        states := states[state := states[state].(stops := states[state].stops - 1)];
      }
      if states[state].users == 0 {
        sessions := sessions - {camera};
      }
    }
  }
}
