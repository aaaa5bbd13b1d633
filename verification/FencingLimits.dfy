// Where the fencing guarantees end: the lag bound is reached, and a node that
// reports a job result must have stopped recording.

module FencingLimits {
  import opened ClusterTypes
  import opened Placement
  import opened Assignments
  import opened Capacity
  import opened Fencing
  import opened Options

  // A healthy node with room for a free recording.
  function Roomy(now: int): Node
  {
    Node(true, true, false, 0, now, 0, Some(ClusterTypes.Report.Report(4, 4, 1.0, 1.0, 1.0, [], true)),
         [Volume(1, 0, true, false)])
  }

  lemma Extend(w: World, steps: seq<Step>, step: Step) returns (longer: seq<Step>)
    ensures longer == steps + [step]
    ensures Run(w, longer) == Next(Run(w, steps), step)
  {
    longer := steps + [step];
    assert longer[..|longer| - 1] == steps;
  }

  lemma RunNothing(w: World)
    ensures Run(w, []) == w
  {
  }

  // ---------- A grant to a new node ----------

  // Nothing in the tables concerns the node yet.
  predicate New(w: World, m: NodeId)
  {
    m !in w.agents && forall k :: k in w.store.rows ==> w.store.rows[k].node != m
  }

  lemma {:induction false} LargerExists(s: set<NodeId>) returns (m: NodeId)
    ensures forall x :: x in s ==> x < m
    decreases |s|
  {
    m := 0;
    if s != {} {
      var x :| x in s;
      var n := LargerExists(s - {x});
      m := if x < n then n else x + 1;
      forall y | y in s ensures y < m {
        if y != x {
          assert y in s - {x};
        }
      }
    }
  }

  lemma NewExists(w: World) returns (m: NodeId)
    ensures New(w, m)
  {
    var holders := set k | k in w.store.rows :: w.store.rows[k].node;
    m := LargerExists(w.agents.Keys + holders);
    forall k | k in w.store.rows ensures w.store.rows[k].node != m {
      assert w.store.rows[k].node in holders;
    }
  }

  // A node without rows carries nothing.
  lemma CarriesNothing(s: Store, k: Key, m: NodeId, now: int)
    requires s.jobs == map[] && forall x :: x in s.rows ==> s.rows[x].node != m
    ensures OtherRecordingLoad(s.rows, k, m, now) == ZERO && DetectorLoad(s.jobs, m, now) == ZERO
  {
    SumZero(s.rows.Keys - {k}, RowLoads(s.rows, m, now));
    SumZero(s.jobs.Keys, JobLoads(s.jobs, m, now));
  }

  // A required node with room is the one selected.
  lemma RequiredIsSelected(s: Store, k: Key, m: NodeId, now: int)
    requires m in s.nodes && s.nodes[m] == Roomy(now)
    requires s.jobs == map[] && forall x :: x in s.rows ==> s.rows[x].node != m
    ensures Selected(QueryOf(s, k, Some(m), RecordCopy, ZERO, now)) == Some(m)
  {
    var q := QueryOf(s, k, Some(m), RecordCopy, ZERO, now);
    CarriesNothing(s, k, m, now);
    assert [Volume(1, 0, true, false)][..0] == [];
    assert Usable([]) == 0;
    assert Usable(s.nodes[m].volumes) == 1;
    assert Eligible(q, m);
    assert IsChoice(q, Some(m)) by {
      hide Fits; hide HasSpace; hide Score;
      assert forall x :: Eligible(q, x) ==> x == m;
    }
    SelectedIsChoice(q, Some(m));
  }

  // The steps by which a new node joins, gets the key and publishes it.
  lemma GrantToNew(w: World, k: Key, m: NodeId) returns (steps: seq<Step>)
    requires New(w, m) && !Fenced(w.store.rows, k, m, w.now)
    ensures var v := Run(w, steps);
      && v.now == w.now && v.store.rows == Grant(w.store.rows, k, m, RecordCopy, ZERO, w.now)
      && v.since == w.since[k := w.now]
      && v.agents == w.agents[m := Agent(map[k := v.store.rows[k]], map[], w.now, w.now, Nothing)]
  {
    hide Next; hide Run; hide Fenced; hide Roomy; hide New;
    RunNothing(w);
    steps := Extend(w, [], Join(m));
    steps := Extend(w, steps, Advance(w.now, map[m := w.now]));
    steps := Extend(w, steps, UpdateJobs(map[]));
    steps := Extend(w, steps, UpdateNode(m, Roomy(w.now)));
    Joins(w, m);
    var u := Run(w, steps);
    steps := Extend(w, steps, Assign(k, Some(m), RecordCopy, ZERO));
    NewIsGranted(w, u, k, m);
    var g := Run(w, steps);
    steps := Extend(w, steps, Synchronize(m, {k}));
    steps := Extend(w, steps, Receive(m));
    steps := Extend(w, steps, Publish(m));
    SynchronizePublishes(g, k, m);
  }

  lemma Joins(w: World, m: NodeId)
    requires New(w, m)
    ensures Next(Next(Next(Next(w, Join(m)), Advance(w.now, map[m := w.now])), UpdateJobs(map[])),
                 UpdateNode(m, Roomy(w.now)))
         == w.(store := w.store.(nodes := w.store.nodes[m := Roomy(w.now)], jobs := map[]),
               agents := w.agents[m := Agent(map[], map[], 0, w.now, Nothing)])
  {
    hide Roomy;
    var a := Next(w, Join(m));
    assert a == WithAgent(w, m, Agent(map[], map[], 0, 0, Nothing));
    var b := Next(a, Advance(w.now, map[m := w.now]));
    assert b.agents == w.agents[m := Agent(map[], map[], 0, w.now, Nothing)];
    assert b == w.(agents := b.agents);
    var c := Next(b, UpdateJobs(map[]));
    assert c == b.(store := w.store.(jobs := map[]));
  }

  lemma NewIsGranted(w: World, u: World, k: Key, m: NodeId)
    requires New(w, m) && !Fenced(w.store.rows, k, m, w.now)
    requires u == w.(store := w.store.(nodes := w.store.nodes[m := Roomy(w.now)], jobs := map[]),
                     agents := w.agents[m := Agent(map[], map[], 0, w.now, Nothing)])
    ensures Next(u, Assign(k, Some(m), RecordCopy, ZERO)) == Granted(u, k, m, RecordCopy, ZERO)
    ensures Granted(u, k, m, RecordCopy, ZERO).since == w.since[k := w.now]
  {
    RequiredIsSelected(u.store, k, m, w.now);
    hide Selected; hide Roomy;
  }

  lemma SynchronizePublishes(w: World, k: Key, m: NodeId)
    requires m in w.agents && k in w.store.rows && w.store.rows[k].node == m
    requires w.agents[m].inbox == Nothing && Ahead(w.store.rows[k], w.agents[m].clock)
    ensures var clock := w.agents[m].clock;
      Next(Next(Next(w, Synchronize(m, {k})), Receive(m)), Publish(m))
      == WithAgent(w, m, Agent(map[k := w.store.rows[k]], map[], clock, clock, Nothing))
  {
    var one := map[k := w.store.rows[k]];
    var clock := w.agents[m].clock;
    assert Payload(w.store.rows, m, {k}) == one;
    assert Accepted(one, clock) == one;
    var a := Next(w, Synchronize(m, {k}));
    assert a == WithAgent(w, m, w.agents[m].(inbox := Inbox.Assignments(one)));
    var b := Next(a, Receive(m));
    assert b == WithAgent(w, m, w.agents[m].(working := one, readAt := clock, inbox := Nothing));
  }

  // ---------- The lag bound is reached ----------

  const CAMERA := Key("camera", "main")

  // Two nodes pass the check for the camera, one of them not the holder any
  // more.
  ghost predicate Overlap(w: World)
  {
    CAMERA in w.store.rows && w.store.rows[CAMERA].node == 2 && Passes(w, 1, CAMERA) && Passes(w, 2, CAMERA)
  }

  // For every positive lag there is a run in which no clock lags more, and in
  // which the old holder still passes the check lag - 1 seconds after the
  // grant to the new one, the last second that OldHolderIsFenced allows.
  lemma LaggingClocksOverlap(stable: (string, NodeId) -> real, lag: nat)
    requires lag > 0
    ensures exists steps :: var w := Run(Init(stable), steps);
      && Overlap(w) && CAMERA in w.since && w.now == w.since[CAMERA] + lag - 1
      && forall n :: n in w.agents ==> w.now - lag <= w.agents[n].clock
  {
    hide Run; hide Next; hide Grant;
    RunNothing(Init(stable));
    var first := GrantToNew(Init(stable), CAMERA, 1);
    var held := Run(Init(stable), first);
    var later := Extend(Init(stable), first, Advance(150, map[1 := 149]));
    var w := Run(Init(stable), later);
    OldHolderWaits(stable, held);
    var second := GrantToNew(w, CAMERA, 2);
    RunConcat(Init(stable), later, second);
    var v := Run(Init(stable), later + second);
    var last := Extend(Init(stable), later + second, Advance(150 + lag - 1, map[]));
    OldHolderPasses(w, v, lag);
  }

  lemma OldHolderWaits(stable: (string, NodeId) -> real, held: World)
    requires held.now == 0 && held.store.rows == Grant(map[], CAMERA, 1, RecordCopy, ZERO, 0)
    requires held.agents == map[1 := Agent(map[CAMERA := held.store.rows[CAMERA]], map[], 0, 0, Nothing)]
    ensures var w := Next(held, Advance(150, map[1 := 149]));
      && w.now == 150 && New(w, 2) && !Fenced(w.store.rows, CAMERA, 2, 150)
      && w.store.rows == held.store.rows && CAMERA in w.store.rows
      && w.agents == map[1 := Agent(map[CAMERA := held.store.rows[CAMERA]], map[], 0, 149, Nothing)]
      && held.store.rows[CAMERA].phase == Active && held.store.rows[CAMERA].isolationDeadline == 150
      && held.store.rows[CAMERA].generation == 1
  {
  }

  lemma OldHolderPasses(w: World, v: World, lag: nat)
    requires lag > 0 && w.now == 150 && CAMERA in w.store.rows
    requires w.agents == map[1 := Agent(map[CAMERA := w.store.rows[CAMERA]], map[], 0, 149, Nothing)]
    requires w.store.rows[CAMERA].phase == Active && w.store.rows[CAMERA].isolationDeadline == 150
    requires w.store.rows[CAMERA].generation == 1
    requires v.now == 150 && v.store.rows == Grant(w.store.rows, CAMERA, 2, RecordCopy, ZERO, 150)
    requires v.since == w.since[CAMERA := 150]
    requires v.agents == w.agents[2 := Agent(map[CAMERA := v.store.rows[CAMERA]], map[], 150, 150, Nothing)]
    ensures var u := Next(v, Advance(150 + lag - 1, map[]));
      && Overlap(u) && CAMERA in u.since && u.now == u.since[CAMERA] + lag - 1
      && forall n :: n in u.agents ==> u.now - lag <= u.agents[n].clock
  {
    var u := Next(v, Advance(150 + lag - 1, map[]));
    assert u.agents == v.agents;
  }

  // ---------- Who may report ----------

  ghost function Released(w: World, n: NodeId, k: Key, generation: nat, phase: Phase): World
  {
    w.(store := Reported(w.store, n, k, generation, phase, w.now).0)
  }

  // Two nodes pass the check, and neither clock lags.
  ghost predicate TwoPass(w: World, n: NodeId, m: NodeId, k: Key)
  {
    && n != m && Passes(w, n, k) && Passes(w, m, k)
    && w.now <= w.agents[n].clock && w.now <= w.agents[m].clock
  }

  // What a recording node publishes without asking the controller again, on an
  // exact clock.
  lemma RecordingPublishes(w: World, n: NodeId, k: Key) returns (steps: seq<Step>)
    requires Inv(w) && Recording(w, n, k)
    ensures var u := Run(w, steps); PublishedFrom(w, u, n, k)
    ensures forall store :: PublishedFrom(w.(store := store), Run(w.(store := store), steps), n, k)
  {
    var exact := Advance(w.now, map[n := w.now]);
    var a := w.agents[n];
    steps := if k in a.snapshot && Ahead(a.snapshot[k], w.now) then [exact]
             else if k in a.working && Ahead(a.working[k], w.now) && Ahead(a.working[k], a.readAt)
             then [exact, Publish(n)]
             else [exact, Receive(n), Publish(n)];
    PositiveGenerations(w, n);
    forall store ensures PublishedFrom(w.(store := store), Run(w.(store := store), steps), n, k) {
      AgentPublishes(w, store, n, k, steps);
    }
    assert w.(store := w.store) == w;
  }

  ghost predicate PublishedFrom(w: World, u: World, n: NodeId, k: Key)
  {
    && u.now == w.now && u.store == w.store && u.since == w.since && u.agents.Keys == w.agents.Keys
    && n in u.agents && u.agents[n].clock == w.now
    && k in u.agents[n].snapshot && Ahead(u.agents[n].snapshot[k], w.now) && u.agents[n].snapshot[k].generation > 0
  }

  ghost predicate Positive(t: Table) { forall k :: k in t ==> t[k].generation > 0 }

  ghost predicate AllPositive(a: Agent)
  {
    Positive(a.snapshot) && Positive(a.working) && (a.inbox.Assignments? ==> Positive(a.inbox.rows))
  }

  lemma PositiveGenerations(w: World, n: NodeId)
    requires Inv(w) && n in w.agents
    ensures AllPositive(w.agents[n])
  {
    var a := w.agents[n];
    InvParts(w, n);
    forall k | k in a.snapshot ensures a.snapshot[k].generation > 0 {
      assert EntryOk(w, n, k, a.snapshot[k], 0);
    }
    forall k | k in a.working ensures a.working[k].generation > 0 {
      assert EntryOk(w, n, k, a.working[k], a.readAt);
    }
    if a.inbox.Assignments? {
      forall k | k in a.inbox.rows ensures a.inbox.rows[k].generation > 0 {
        assert EntryOk(w, n, k, a.inbox.rows[k], 0);
      }
    }
  }

  lemma AgentPublishes(w: World, store: Store, n: NodeId, k: Key, steps: seq<Step>)
    requires n in w.agents && Recording(w, n, k) && AllPositive(w.agents[n])
    requires var exact := Advance(w.now, map[n := w.now]);
      var a := w.agents[n];
      steps == if k in a.snapshot && Ahead(a.snapshot[k], w.now) then [exact]
               else if k in a.working && Ahead(a.working[k], w.now) && Ahead(a.working[k], a.readAt)
               then [exact, Publish(n)]
               else [exact, Receive(n), Publish(n)]
    ensures PublishedFrom(w.(store := store), Run(w.(store := store), steps), n, k)
  {
    hide Run; hide Next; hide Recording; hide Received; hide Accepted; hide AllPositive;
    var u := w.(store := store);
    var a := w.agents[n].(clock := w.now);
    RunSteps(u, Advance(w.now, map[n := w.now]), Receive(n), Publish(n));
    StepsOfAgent(u, n);
    ClockKeepsPositive(w.agents[n], w.now);
    if k in a.snapshot && Ahead(a.snapshot[k], w.now) {
      SnapshotIsPositive(a, k);
    } else if k in a.working && Ahead(a.working[k], w.now) && Ahead(a.working[k], a.readAt) {
      PublishingKeeps(a, w.now, k);
    } else {
      ReceivingKeeps(w, n, k);
      PublishingKeeps(Received(a), w.now, k);
    }
  }

  function Publishing(a: Agent): Agent
  {
    a.(snapshot := Accepted(a.working, a.readAt), working := map[], inbox := Nothing)
  }

  lemma StepsOfAgent(u: World, n: NodeId)
    requires n in u.agents
    ensures var a := u.agents[n].(clock := u.now);
      var timed := Next(u, Advance(u.now, map[n := u.now]));
      && timed == u.(agents := u.agents[n := a])
      && Next(timed, Publish(n)) == u.(agents := u.agents[n := Publishing(a)])
      && Next(Next(timed, Receive(n)), Publish(n)) == u.(agents := u.agents[n := Publishing(Received(a))])
  {
    hide Next; hide Publishing; hide Received;
    var a := u.agents[n].(clock := u.now);
    var timed := WithAgent(u, n, a);
    ClockIsExact(u, n);
    PublishIs(timed, n);
    var r := WithAgent(timed, n, Received(a));
    ReceiveIs(timed, n);
    PublishIs(r, n);
    assert u.agents[n := a][n := Publishing(a)] == u.agents[n := Publishing(a)];
    assert u.agents[n := a][n := Received(a)][n := Publishing(Received(a))] == u.agents[n := Publishing(Received(a))];
  }

  lemma ClockIsExact(u: World, n: NodeId)
    requires n in u.agents
    ensures Next(u, Advance(u.now, map[n := u.now])) == WithAgent(u, n, u.agents[n].(clock := u.now))
  {
    var timed := Next(u, Advance(u.now, map[n := u.now]));
    assert timed.agents == u.agents[n := u.agents[n].(clock := u.now)];
  }

  lemma PublishIs(u: World, n: NodeId)
    requires n in u.agents
    ensures Next(u, Publish(n)) == WithAgent(u, n, Publishing(u.agents[n]))
  {
    hide Accepted;
  }

  lemma ReceiveIs(u: World, n: NodeId)
    requires n in u.agents
    ensures Next(u, Receive(n)) == WithAgent(u, n, Received(u.agents[n]))
  {
    hide Received;
  }

  lemma ClockKeepsPositive(a: Agent, clock: int)
    requires AllPositive(a)
    ensures AllPositive(a.(clock := clock))
  {
  }

  lemma SnapshotIsPositive(a: Agent, k: Key)
    requires AllPositive(a) && k in a.snapshot
    ensures a.snapshot[k].generation > 0
  {
  }

  lemma PublishingKeeps(a: Agent, now: int, k: Key)
    requires AllPositive(a) && k in a.working && Ahead(a.working[k], now) && Ahead(a.working[k], a.readAt)
    ensures var b := Publishing(a);
      k in b.snapshot && Ahead(b.snapshot[k], now) && b.snapshot[k].generation > 0 && b.clock == a.clock
  {
  }

  // What is on its way arrives ahead of an exact clock.
  lemma ReceivingKeeps(w: World, n: NodeId, k: Key)
    requires n in w.agents && Recording(w, n, k) && AllPositive(w.agents[n])
    requires var a := w.agents[n];
      && !(k in a.snapshot && Ahead(a.snapshot[k], w.now))
      && !(k in a.working && Ahead(a.working[k], w.now) && Ahead(a.working[k], a.readAt))
    ensures var b := Received(w.agents[n].(clock := w.now));
      && AllPositive(b) && b.clock == w.now
      && k in b.working && Ahead(b.working[k], w.now) && Ahead(b.working[k], b.readAt)
  {
  }

  lemma RunSteps(w: World, a: Step, b: Step, c: Step)
    ensures Run(w, [a]) == Next(w, a)
    ensures Run(w, [a, c]) == Next(Next(w, a), c)
    ensures Run(w, [a, b, c]) == Next(Next(Next(w, a), b), c)
  {
    hide Next; hide Run;
    RunNothing(w);
    var one := Extend(w, [], a);
    assert one == [a];
    var two := Extend(w, [a], c);
    assert two == [a, c];
    var other := Extend(w, [a], b);
    assert other == [a, b];
    var three := Extend(w, [a, b], c);
    assert three == [a, b, c];
  }

  // A node whose report is accepted while it records can share the key with
  // another one at once.
  lemma RecordingReporterOverlaps(w: World, n: NodeId, k: Key, generation: nat, phase: Phase)
      returns (more: seq<Step>, m: NodeId)
    requires Inv(w) && Recording(w, n, k) && Reported(w.store, n, k, generation, phase, w.now).1.Ok?
    ensures TwoPass(Run(Released(w, n, k, generation, phase), more), n, m, k)
  {
    hide Run; hide Next; hide Recording; hide Inv; hide Grant;
    var released := Released(w, n, k, generation, phase);
    var publish := RecordingPublishes(w, n, k);
    assert PublishedFrom(w.(store := released.store), Run(w.(store := released.store), publish), n, k);
    var u := Run(released, publish);
    m := NewExists(u);
    var grant := GrantToNew(u, k, m);
    more := publish + grant;
    RunConcat(released, publish, grant);
    GrantIsLive(u, k, m);
  }

  lemma GrantIsLive(w: World, k: Key, m: NodeId)
    ensures var row := Grant(w.store.rows, k, m, RecordCopy, ZERO, w.now)[k]; Ahead(row, w.now) && row.generation > 0
  {
  }

  lemma SilentReporterNeverOverlaps(w: World, n: NodeId, m: NodeId, k: Key, generation: nat, phase: Phase,
                                    more: seq<Step>)
    requires Inv(w) && !Recording(w, n, k)
    ensures !TwoPass(Run(Released(w, n, k, generation, phase), more), n, m, k)
  {
    hide Inv; hide Recording; hide Run;
    ReportKeepsInv(w, n, k, generation, phase);
    RunKeepsInv(Released(w, n, k, generation, phase), more);
    var v := Run(Released(w, n, k, generation, phase), more);
    if Passes(v, n, k) && Passes(v, m, k) && v.now <= v.agents[n].clock && v.now <= v.agents[m].clock {
      PassingIsHolder(v, n, k, 0);
      PassingIsHolder(v, m, k, 0);
    }
  }

  // The exact condition: in a reachable world, an accepted report can be
  // followed by two nodes passing the check, on clocks that do not lag, if and
  // only if the reporter was still recording: it had an unexpired entry that
  // was published, in its working copy, or on its way to it.
  lemma ReportOverlapsExactly(stable: (string, NodeId) -> real, steps: seq<Step>, n: NodeId, k: Key, generation: nat,
                              phase: Phase)
    requires var w := Run(Init(stable), steps); Reported(w.store, n, k, generation, phase, w.now).1.Ok?
    ensures var w := Run(Init(stable), steps);
      (exists more, m :: TwoPass(Run(Released(w, n, k, generation, phase), more), n, m, k)) <==> Recording(w, n, k)
  {
    hide Inv; hide Recording; hide TwoPass; hide Released; hide Next;
    var w := Run(Init(stable), steps);
    InitInv(stable);
    RunKeepsInv(Init(stable), steps);
    if Recording(w, n, k) {
      var more, m := RecordingReporterOverlaps(w, n, k, generation, phase);
    } else {
      forall more, m ensures !TwoPass(Run(Released(w, n, k, generation, phase), more), n, m, k) {
        SilentReporterNeverOverlaps(w, n, m, k, generation, phase, more);
      }
    }
  }

  // There are such reports: a node that has just published its first entry.
  lemma ReportBeforeDropOverlaps(stable: (string, NodeId) -> real)
    ensures exists steps, more, m ::
      var w := Run(Init(stable), steps);
      Reported(w.store, 1, CAMERA, 1, Completed, w.now).1.Ok?
      && TwoPass(Run(Released(w, 1, CAMERA, 1, Completed), more), 1, m, CAMERA)
  {
    hide Run; hide Next; hide Inv; hide TwoPass; hide Released;
    RunNothing(Init(stable));
    var steps := GrantToNew(Init(stable), CAMERA, 1);
    InitInv(stable);
    RunKeepsInv(Init(stable), steps);
    var more, m := RecordingReporterOverlaps(Run(Init(stable), steps), 1, CAMERA, 1, Completed);
  }
}
