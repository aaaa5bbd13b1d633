// Admission control: what a successful assignment guarantees about the
// chosen node's limits, and which runs keep the recording part of it.

module Capacity {
  import opened ClusterTypes
  import opened Placement
  import opened Assignments
  import opened Fencing
  import opened Options

  predicate NonNegative(c: Costs) { ZERO.Within(c) }

  lemma {:induction false} SumNonNegative<T(!new)>(s: set<T>, w: T -> Costs)
    requires forall x :: x in s ==> NonNegative(w(x))
    ensures NonNegative(SumOver(s, w))
    decreases |s|
  {
    if s != {} {
      var x :| x in s;
      SumStep(s, w, x);
      SumNonNegative(s - {x}, w);
    }
  }

  lemma {:induction false} SumCongruent<T(!new)>(s: set<T>, v: T -> Costs, w: T -> Costs)
    requires forall x :: x in s ==> v(x) == w(x)
    ensures SumOver(s, v) == SumOver(s, w)
    decreases |s|
  {
    if s != {} {
      var x :| x in s;
      SumStep(s, v, x);
      SumStep(s, w, x);
      SumCongruent(s - {x}, v, w);
    }
  }

  lemma {:induction false} SumZero<T(!new)>(s: set<T>, w: T -> Costs)
    requires forall x :: x in s ==> w(x) == ZERO
    ensures SumOver(s, w) == ZERO
    decreases |s|
  {
    if s != {} {
      var x :| x in s;
      SumStep(s, w, x);
      SumZero(s - {x}, w);
    }
  }

  // The grant adds exactly the new cost to what the node carries otherwise.
  lemma GrantLoad(rows: Table, k: Key, n: NodeId, task: Task, costs: Costs, now: int)
    ensures RecordingLoad(Grant(rows, k, n, task, costs, now), n, now)
         == costs.Plus(OtherRecordingLoad(rows, k, n, now))
  {
    var after := Grant(rows, k, n, task, costs, now);
    SumStep(after.Keys, RowLoads(after, n, now), k);
    assert after.Keys - {k} == rows.Keys - {k};
    SumCongruent(rows.Keys - {k}, RowLoads(after, n, now), RowLoads(rows, n, now));
  }

  lemma ScheduledFits(reserved: Costs, recording: Costs, detectors: Costs, costs: Costs, limits: Costs)
    requires Max(reserved, recording.Plus(detectors)).Plus(costs).Within(limits)
    ensures costs.Plus(recording).Plus(detectors).Within(limits)
  {
  }

  lemma EligibleAfterGrant(q: Query, n: NodeId)
    requires Eligible(q, n)
    ensures q.nodes[n].report.Some?
    ensures RecordingLoad(Grant(q.rows, q.key, n, q.task, q.costs, q.now), n, q.now)
              .Plus(DetectorLoad(q.jobs, n, q.now)).Within(Limits(q.nodes[n].report.value))
  {
    hide Limits; hide Reserved; hide SumOver;
    var report := q.nodes[n].report.value;
    GrantLoad(q.rows, q.key, n, q.task, q.costs, q.now);
    ScheduledFits(Reserved(report.reservations), OtherRecordingLoad(q.rows, q.key, n, q.now),
                  DetectorLoad(q.jobs, n, q.now), q.costs, Limits(report));
  }

  // The order of candidates is total and transitive.
  lemma OutranksIsTotal(a: real, n: NodeId, b: real, m: NodeId)
    requires n != m
    ensures Outranks(a, n, b, m) || Outranks(b, m, a, n)
  {
  }

  lemma OutranksIsTransitive(a: real, n: NodeId, b: real, m: NodeId, c: real, o: NodeId)
    requires Outranks(a, n, b, m) && Outranks(b, m, c, o)
    ensures Outranks(a, n, c, o)
  {
  }

  ghost predicate IsBest(q: Query, s: set<NodeId>, n: NodeId)
    requires s <= q.nodes.Keys
  {
    n in s && forall m :: m in s && m != n ==> Outranks(Score(q, n), n, Score(q, m), m)
  }

  // The better of a node and the best of the others is the best of all.
  lemma BetterIsBest(q: Query, s: set<NodeId>, n: NodeId, m: NodeId)
    requires s <= q.nodes.Keys && n in s && m in s && n != m && Outranks(Score(q, n), n, Score(q, m), m)
    requires IsBest(q, s - {n}, m)
    ensures IsBest(q, s, n)
  {
    hide Score; hide Outranks;
    forall o | o in s && o != n ensures Outranks(Score(q, n), n, Score(q, o), o) {
      if o != m {
        OutranksIsTransitive(Score(q, n), n, Score(q, m), m, Score(q, o), o);
      }
    }
  }

  lemma BestStaysBest(q: Query, s: set<NodeId>, n: NodeId, m: NodeId)
    requires s <= q.nodes.Keys && n in s && IsBest(q, s - {n}, m) && Outranks(Score(q, m), m, Score(q, n), n)
    ensures IsBest(q, s, m)
  {
    hide Score; hide Outranks;
  }

  // A nonempty set of nodes has one that outranks the others.
  lemma {:induction false} BestExists(q: Query, s: set<NodeId>) returns (n: NodeId)
    requires s != {} && s <= q.nodes.Keys
    ensures IsBest(q, s, n)
    decreases |s|
  {
    hide Score; hide Outranks;
    n :| n in s;
    if s != {n} {
      hide IsBest;
      var m := BestExists(q, s - {n});
      BestIsMember(q, s - {n}, m);
      OutranksIsTotal(Score(q, n), n, Score(q, m), m);
      if Outranks(Score(q, n), n, Score(q, m), m) {
        BetterIsBest(q, s, n, m);
      } else {
        BestStaysBest(q, s, n, m);
        n := m;
      }
    }
  }

  lemma BestIsMember(q: Query, s: set<NodeId>, n: NodeId)
    requires s <= q.nodes.Keys && IsBest(q, s, n)
    ensures n in s
  {
  }

  lemma ChoiceExists(q: Query) returns (r: Option<NodeId>)
    ensures IsChoice(q, r) && Selected(q) == r
  {
    hide Fits; hide Healthy; hide HasSpace; hide Score; hide Outranks;
    var s := set n | n in q.nodes && Eligible(q, n);
    if s == {} {
      r := None;
      assert forall n :: Eligible(q, n) ==> n in s;
    } else {
      var n := BestExists(q, s);
      r := Some(n);
    }
    SelectedIsChoice(q, r);
  }

  // Admission: after a successful assignment the chosen node was eligible,
  // outranked every other eligible node, and carries its unexpired
  // recordings and running detectors within its limits in every dimension.
  // A refusal for capacity means no node was eligible.
  lemma AssignAdmits(s: Store, k: Key, required: Option<NodeId>, task: Task, costs: Costs, now: int)
    ensures var q := QueryOf(s, k, required, task, costs, now);
      var (after, r) := Assigned(s, k, required, task, costs, now);
      match r
      case Ok(lease) =>
        var n := lease.node;
        && Eligible(q, n) && s.nodes[n].report.Some?
        && (forall m :: m != n && Eligible(q, m) ==> Outranks(Score(q, n), n, Score(q, m), m))
        && RecordingLoad(after.rows, n, now).Plus(DetectorLoad(s.jobs, n, now))
             .Within(Limits(s.nodes[n].report.value))
      case Refused(why) =>
        && after == s
        && if why.Isolation? then exists n :: Eligible(q, n) && Fenced(s.rows, k, n, now)
           else forall m :: !Eligible(q, m)
  {
    hide Score; hide Fits; hide Healthy; hide Limits; hide SumOver; hide Selected;
    var q := QueryOf(s, k, required, task, costs, now);
    var choice := ChoiceExists(q);
    if choice.Some? {
      EligibleAfterGrant(q, choice.value);
    }
  }

  // ---------- What makes a node eligible ----------

  // The rows and jobs that weigh on a node, and nothing else, make its load.
  function Weighing(rows: Table, n: NodeId, now: int): set<Key>
  {
    set k | k in rows && rows[k].node == n && rows[k].phase.Active? && rows[k].isolationDeadline > now
  }

  function RunningJobs(jobs: Jobs, n: NodeId, now: int): set<JobId>
  {
    set j | j in jobs && jobs[j].node == n && jobs[j].state.Running? && jobs[j].leaseExpiresAt > now
  }

  lemma LoadCounts(rows: Table, jobs: Jobs, k: Key, n: NodeId, now: int)
    ensures OtherRecordingLoad(rows, k, n, now)
         == SumOver(Weighing(rows, n, now) - {k}, x => if x in rows then rows[x].costs else ZERO)
    ensures DetectorLoad(jobs, n, now)
         == SumOver(RunningJobs(jobs, n, now), j => if j in jobs then jobs[j].costs else ZERO)
    ensures RecordingLoad(map[], n, now) == DetectorLoad(map[], n, now) == Costs(0.0, 0.0, 0.0, 0.0, 0.0)
  {
    SumExtra(rows.Keys - {k}, Weighing(rows, n, now) - {k}, RowLoads(rows, n, now));
    SumCongruent(Weighing(rows, n, now) - {k}, RowLoads(rows, n, now), x => if x in rows then rows[x].costs else ZERO);
    SumExtra(jobs.Keys, RunningJobs(jobs, n, now), JobLoads(jobs, n, now));
    SumCongruent(RunningJobs(jobs, n, now), JobLoads(jobs, n, now), j => if j in jobs then jobs[j].costs else ZERO);
  }

  // Any reservation and any volume may be taken out of its sum.
  lemma {:induction false} ReservedStep(reservations: seq<Costs>, i: nat)
    requires i < |reservations|
    ensures Reserved(reservations) == reservations[i].Plus(Reserved(reservations[..i] + reservations[i + 1..]))
    ensures Reserved([]) == ZERO
  {
    var last := |reservations| - 1;
    var before := reservations[..last];
    if i < last {
      ReservedStep(before, i);
      var rest := reservations[..i] + reservations[i + 1..];
      assert rest[..|rest| - 1] == before[..i] + before[i + 1..];
    } else {
      assert reservations[..i] + reservations[i + 1..] == before;
    }
  }

  lemma {:induction false} UsableStep(volumes: seq<Volume>, i: nat)
    requires i < |volumes|
    ensures Usable(volumes) == Usable(volumes[..i] + volumes[i + 1..])
      + if volumes[i].online && !volumes[i].readOnly && volumes[i].freeBytes > volumes[i].reserveBytes
        then volumes[i].freeBytes - volumes[i].reserveBytes else 0
    ensures Usable([]) == 0
  {
    var last := |volumes| - 1;
    var before := volumes[..last];
    if i < last {
      UsableStep(before, i);
      var rest := volumes[..i] + volumes[i + 1..];
      assert rest[..|rest| - 1] == before[..i] + before[i + 1..];
    } else {
      assert volumes[..i] + volumes[i + 1..] == before;
    }
  }

  lemma {:induction false} UsableIff(volumes: seq<Volume>)
    ensures Usable(volumes) > 0 <==>
      exists v :: v in volumes && v.online && !v.readOnly && v.freeBytes > v.reserveBytes
  {
    if volumes != [] {
      var before, last := volumes[..|volumes| - 1], volumes[|volumes| - 1];
      UsableIff(before);
      assert volumes == before + [last];
    }
  }

  // A node may take a task exactly if it is online and was not revoked, plays
  // the part that is asked for, has a clock within five seconds, was heard of
  // in the last twenty, carries the task in every dimension on top of what it
  // reports and on top of what it was given, and has a volume to record to.
  lemma EligibleMeans(q: Query, n: NodeId)
    ensures Eligible(q, n) <==>
      && n in q.nodes && q.nodes[n].online && !q.nodes[n].revoked && q.nodes[n].report.Some?
      && var node := q.nodes[n]; var report := node.report.value;
      var given := OtherRecordingLoad(q.rows, q.key, n, q.now).Plus(DetectorLoad(q.jobs, n, q.now));
      var limits :=
        if report.rated
        then Costs(report.cpuCores as real, report.memoryBytes as real, report.decodeSlots, report.encodeSlots,
                   report.diskBytesPerSecond)
        else Costs(report.cpuCores as real / 4.0, report.memoryBytes as real / 4.0, 0.0, 0.0,
                   report.diskBytesPerSecond / 4.0);
      && (q.task.DetectorReserved? ==> node.worker) && (q.required.Some? ==> q.required.value == n)
      && -5000 <= node.clockOffsetMs <= 5000 && q.now - node.lastSeenAt <= 20
      && Reserved(report.reservations).Plus(q.costs).Within(limits) && given.Plus(q.costs).Within(limits)
      && (q.task.RecordCopy? || q.task.RecordTranscode? ==>
            exists v :: v in node.volumes && v.online && !v.readOnly && v.freeBytes > v.reserveBytes)
  {
    hide SumOver; hide Reserved; hide Usable;
    if n in q.nodes {
      UsableIff(q.nodes[n].volumes);
    }
  }

  // Between eligible nodes, a gibibyte more of usable space decides; with the
  // same space the stable hash does, and then the id.
  lemma ChoicePrefers(q: Query, n: NodeId, m: NodeId)
    requires IsChoice(q, Some(n)) && Eligible(q, m) && m != n
    requires 0.0 <= (q.stable)(q.key.camera, n) < 1.0 && 0.0 <= (q.stable)(q.key.camera, m) < 1.0
    ensures n in q.nodes && m in q.nodes && Usable(q.nodes[m].volumes) < Usable(q.nodes[n].volumes) + 0x4000_0000
    ensures Usable(q.nodes[m].volumes) == Usable(q.nodes[n].volumes) ==>
      var x, y := (q.stable)(q.key.camera, n), (q.stable)(q.key.camera, m); x > y || (x == y && n > m)
  {
    hide Usable; hide Fits; hide Healthy; hide HasSpace;
    assert Outranks(Score(q, n), n, Score(q, m), m);
  }

  // ---------- The recording bound along runs ----------

  // A row that still weighs on its node.
  predicate Weighs(row: Row, now: int) { row.phase.Active? && row.isolationDeadline > now }

  ghost predicate Loaded(rows: Table, n: NodeId, now: int)
  {
    exists k :: k in rows && rows[k].node == n && Weighs(rows[k], now)
  }

  ghost predicate WithinLimits(w: World, n: NodeId)
  {
    && n in w.store.nodes && w.store.nodes[n].report.Some?
    && RecordingLoad(w.store.rows, n, w.now).Within(Limits(w.store.nodes[n].report.value))
  }

  // No node carries more unexpired recording cost than its limits.
  ghost predicate Bounded(w: World)
  {
    && (forall k :: k in w.store.rows ==> NonNegative(w.store.rows[k].costs))
    && (forall j :: j in w.store.jobs ==> NonNegative(w.store.jobs[j].costs))
    && forall n :: Loaded(w.store.rows, n, w.now) ==> WithinLimits(w, n)
  }

  predicate Unexpired(rows: Table, k: Key, now: int)
  {
    k in rows ==> rows[k].isolationDeadline > now
  }

  // The steps the bound survives: costs are not negative, a renewal finds
  // the row unexpired, and a node report does not shrink the limits.
  ghost predicate Admissible(w: World, step: Step)
  {
    match step
    case Assign(_, _, _, costs) => NonNegative(costs)
    case UpdateJobs(jobs) => forall j :: j in jobs ==> NonNegative(jobs[j].costs)
    case StrayRenewal(_, k, _) => Unexpired(w.store.rows, k, w.now)
    case RequestRenewal(_, k) => Unexpired(w.store.rows, k, w.now)
    case UpdateNode(n, row) =>
      n in w.store.nodes && w.store.nodes[n].report.Some? ==>
        row.report.Some? && Limits(w.store.nodes[n].report.value).Within(Limits(row.report.value))
    case _ => true
  }

  // On this node no row weighs that did not weigh the same before.
  ghost predicate Lighter(rows: Table, now: int, after: Table, later: int, n: NodeId)
  {
    forall k :: k in after && after[k].node == n && Weighs(after[k], later) ==>
      k in rows && rows[k].node == n && Weighs(rows[k], now) && rows[k].costs == after[k].costs
  }

  lemma LighterIsBounded(w: World, v: World, n: NodeId)
    requires Bounded(w) && Lighter(w.store.rows, w.now, v.store.rows, v.now, n)
    requires v.store.rows.Keys >= w.store.rows.Keys
    requires n in w.store.nodes && w.store.nodes[n].report.Some? ==>
               n in v.store.nodes && v.store.nodes[n].report.Some?
               && Limits(w.store.nodes[n].report.value).Within(Limits(v.store.nodes[n].report.value))
    requires Loaded(v.store.rows, n, v.now)
    ensures WithinLimits(v, n)
  {
    hide Limits; hide SumOver;
    var k :| k in v.store.rows && v.store.rows[k].node == n && Weighs(v.store.rows[k], v.now);
    assert Loaded(w.store.rows, n, w.now) && WithinLimits(w, n);
    var before := RowLoads(w.store.rows, n, w.now);
    var after := RowLoads(v.store.rows, n, v.now);
    SumMonotone(v.store.rows.Keys, after, before);
    SumExtra(v.store.rows.Keys, w.store.rows.Keys, before);
  }

  // Elements of weight zero do not change a sum.
  lemma {:induction false} SumExtra<T(!new)>(s: set<T>, t: set<T>, w: T -> Costs)
    requires t <= s && forall x :: x in s - t ==> w(x) == ZERO
    ensures SumOver(s, w) == SumOver(t, w)
    decreases |s|
  {
    if s - t == {} {
      assert s == t;
    } else {
      var x :| x in s - t;
      SumStep(s, w, x);
      SumExtra(s - {x}, t, w);
    }
  }

  lemma PartWithin(a: Costs, b: Costs, limits: Costs)
    requires a.Plus(b).Within(limits) && NonNegative(b)
    ensures a.Within(limits)
  {
  }

  lemma AssignKeepsBounded(w: World, k: Key, required: Option<NodeId>, task: Task, costs: Costs)
    requires Bounded(w) && NonNegative(costs)
    ensures Bounded(AfterAssign(w, k, required, task, costs))
  {
    hide Limits; hide SumOver; hide Selected; hide Fits; hide Healthy; hide Score;
    var v := AfterAssign(w, k, required, task, costs);
    AssignAdmits(w.store, k, required, task, costs, w.now);
    var (after, r) := Assigned(w.store, k, required, task, costs, w.now);
    if r.Ok? {
      forall n | Loaded(v.store.rows, n, v.now) ensures WithinLimits(v, n) {
        if n == r.value.node {
          SumNonNegative(w.store.jobs.Keys, JobLoads(w.store.jobs, n, w.now));
          PartWithin(RecordingLoad(v.store.rows, n, w.now), DetectorLoad(w.store.jobs, n, w.now),
                     Limits(w.store.nodes[n].report.value));
        } else {
          LighterIsBounded(w, v, n);
        }
      }
    }
  }

  lemma StepKeepsBounded(w: World, step: Step)
    requires Inv(w) && Bounded(w) && Admissible(w, step)
    ensures Bounded(Next(w, step))
  {
    hide Limits; hide SumOver; hide Selected; hide Inv;
    if step.Assign? {
      AssignKeepsBounded(w, step.key, step.required, step.task, step.costs);
    } else {
      OtherStepKeepsBounded(w, step);
    }
  }

  // Apart from assignment, an admissible step never moves a row, never
  // revives one and never changes its cost.
  ghost predicate Settles(rows: Table, now: int, after: Table, later: int)
  {
    && after.Keys == rows.Keys
    && forall k :: k in rows ==>
         && after[k].costs == rows[k].costs && after[k].node == rows[k].node
         && (Weighs(after[k], later) ==> Weighs(rows[k], now))
  }

  lemma RenewSettles(s: Store, n: NodeId, k: Key, generation: nat, now: int)
    requires Unexpired(s.rows, k, now)
    ensures Settles(s.rows, now, Renewed(s, n, k, generation, now).0.rows, now)
  {
  }

  lemma RevokeSettles(s: Store, n: NodeId, revision: nat, now: int)
    ensures Settles(s.rows, now, RevokedNode(s, n, revision).0.rows, now)
  {
  }

  lemma ReportSettles(s: Store, n: NodeId, k: Key, generation: nat, phase: Phase, now: int)
    ensures Settles(s.rows, now, Reported(s, n, k, generation, phase, now).0.rows, now)
    ensures Settles(s.rows, now, s.rows, now)
  {
  }

  lemma TimeSettles(rows: Table, now: int, later: int)
    requires now <= later
    ensures Settles(rows, now, rows, later)
  {
  }

  lemma OtherStepSettles(w: World, step: Step)
    requires Admissible(w, step) && !step.Assign?
    ensures Settles(w.store.rows, w.now, Next(w, step).store.rows, Next(w, step).now)
  {
    hide FiledAll; hide Limits; hide Renewed; hide Settles;
    match step
    case StrayRenewal(n, k, generation) => RenewSettles(w.store, n, k, generation, w.now);
    case RequestRenewal(n, k) =>
      if n in w.agents && k in w.agents[n].working {
        RenewSettles(w.store, n, k, w.agents[n].working[k].generation, w.now);
      }
      TimeSettles(w.store.rows, w.now, w.now);
    case Revoke(n, revision) => RevokeSettles(w.store, n, revision, w.now);
    case Report(n, k, generation, phase) => ReportSettles(w.store, n, k, generation, phase, w.now);
    case Advance(now, clocks) => TimeSettles(w.store.rows, w.now, Next(w, step).now);
    case _ => TimeSettles(w.store.rows, w.now, w.now);
  }

  lemma OtherStepKeepsBounded(w: World, step: Step)
    requires Bounded(w) && Admissible(w, step) && !step.Assign?
    ensures Bounded(Next(w, step))
  {
    hide Limits; hide SumOver; hide FiledAll; hide WithinLimits; hide Next;
    OtherStepSettles(w, step);
    var v := Next(w, step);
    NodesKept(w, step);
    forall n | Loaded(v.store.rows, n, v.now) ensures WithinLimits(v, n) {
      LighterIsBounded(w, v, n);
    }
  }

  lemma NodesKept(w: World, step: Step)
    requires Admissible(w, step) && !step.Assign?
    ensures var v := Next(w, step);
      forall n :: n in w.store.nodes && w.store.nodes[n].report.Some? ==>
        n in v.store.nodes && v.store.nodes[n].report.Some?
        && Limits(w.store.nodes[n].report.value).Within(Limits(v.store.nodes[n].report.value))
    ensures forall j :: j in Next(w, step).store.jobs ==>
              (j in w.store.jobs && Next(w, step).store.jobs[j] == w.store.jobs[j])
              || NonNegative(Next(w, step).store.jobs[j].costs)
  {
    hide Limits; hide FiledAll;
  }

  ghost predicate AdmissibleRun(w: World, steps: seq<Step>)
  {
    forall i :: 0 <= i < |steps| ==> Admissible(Run(w, steps[..i]), steps[i])
  }

  // Along every run of admissible steps, each node's unexpired recordings
  // stay within its current limits.
  lemma {:induction false} RecordingsStayWithinLimits(stable: (string, NodeId) -> real, steps: seq<Step>)
    requires AdmissibleRun(Init(stable), steps)
    ensures Bounded(Run(Init(stable), steps))
  {
    var w := Init(stable);
    if steps != [] {
      var before := steps[..|steps| - 1];
      forall i | 0 <= i < |before| ensures Admissible(Run(w, before[..i]), before[i]) {
        assert before[..i] == steps[..i];
      }
      RecordingsStayWithinLimits(stable, before);
      InitInv(stable);
      RunKeepsInv(w, before);
      StepKeepsBounded(Run(w, before), steps[|steps| - 1]);
    }
  }
}
