// Node placement: which node may take a task, and which of them takes it
// (cluster/cluster_service.py, ClusterStore._select_node).

// Types shared by the cluster modules: one row type per table of the
// controller's database.
module ClusterTypes {
  import opened Options

  // Node ids are fixed-length hexadecimal strings; they are compared as the
  // numbers they spell.
  type NodeId = nat
  type JobId = nat
  datatype Key = Key(camera: string, profile: string)
  datatype Task = RecordCopy | RecordTranscode | GatewayTranscode | Composite | Export | DetectorReserved

  const LEASE_SECONDS := 30
  const ISOLATION_GRACE_SECONDS := 120
  const NODE_UNHEALTHY_SECONDS := 20
  const MAX_CLOCK_SKEW_SECONDS := 5

  // The five dimensions of a task's cost and of a node's limits.
  datatype Costs = Costs(cpu: real, memory: real, decode: real, encode: real, disk: real) {
    function Plus(o: Costs): Costs {
      Costs(cpu + o.cpu, memory + o.memory, decode + o.decode, encode + o.encode, disk + o.disk)
    }

    predicate Within(o: Costs) {
      cpu <= o.cpu && memory <= o.memory && decode <= o.decode && encode <= o.encode && disk <= o.disk
    }
  }

  lemma PlusSwap(a: Costs, b: Costs, c: Costs)
    ensures a.Plus(b.Plus(c)) == b.Plus(a.Plus(c)) == a.Plus(b).Plus(c)
  {
  }

  const ZERO := Costs(0.0, 0.0, 0.0, 0.0, 0.0)

  function MaxReal(a: real, b: real): real { if a < b then b else a }

  function Max(a: Costs, b: Costs): Costs {
    Costs(MaxReal(a.cpu, b.cpu), MaxReal(a.memory, b.memory), MaxReal(a.decode, b.decode),
          MaxReal(a.encode, b.encode), MaxReal(a.disk, b.disk))
  }

  datatype Volume = Volume(freeBytes: nat, reserveBytes: nat, online: bool, readOnly: bool)
  datatype Report = Report(cpuCores: nat, memoryBytes: nat, decodeSlots: real, encodeSlots: real,
                           diskBytesPerSecond: real, reservations: seq<Costs>, rated: bool)
  datatype Node = Node(worker: bool, online: bool, revoked: bool, revision: nat, lastSeenAt: int,
                       clockOffsetMs: int, report: Option<Report>, volumes: seq<Volume>)

  datatype Phase = Active | Revoked | Completed | Failed
  datatype Row = Row(node: NodeId, generation: nat, phase: Phase, leaseExpiresAt: int,
                     isolationDeadline: int, updatedAt: int, task: Task, costs: Costs)
  type Table = map<Key, Row>

  datatype JobState = Queued | Running | Done | Broken
  datatype Job = Job(key: Key, node: NodeId, generation: nat, state: JobState, leaseExpiresAt: int,
                     createdAt: int, costs: Costs)
  type Jobs = map<JobId, Job>
}

module Placement {
  import opened ClusterTypes
  import opened Options

  // ---------- Sums over a table ----------

  ghost function SumOver<T(!new)>(s: set<T>, w: T -> Costs): Costs
  {
    if s == {} then ZERO else var x :| x in s; w(x).Plus(SumOver(s - {x}, w))
  }

  // Any element may be taken out first.
  lemma {:induction false} SumStep<T(!new)>(s: set<T>, w: T -> Costs, y: T)
    requires y in s
    ensures SumOver(s, w) == w(y).Plus(SumOver(s - {y}, w))
    decreases |s|
  {
    var x :| x in s && SumOver(s, w) == w(x).Plus(SumOver(s - {x}, w));
    if x != y {
      SumStep(s - {x}, w, y);
      SumStep(s - {y}, w, x);
      assert s - {x} - {y} == s - {y} - {x};
      PlusSwap(w(x), w(y), SumOver(s - {x} - {y}, w));
    }
  }

  lemma {:induction false} SumMonotone<T(!new)>(s: set<T>, v: T -> Costs, w: T -> Costs)
    requires forall x :: x in s ==> v(x).Within(w(x))
    ensures SumOver(s, v).Within(SumOver(s, w))
    decreases |s|
  {
    if s != {} {
      var x :| x in s;
      SumStep(s, v, x);
      SumStep(s, w, x);
      SumMonotone(s - {x}, v, w);
    }
  }

  // The cost a recording row puts on a node at an instant: it counts while
  // the row is active and its isolation deadline has not passed.
  function RowLoad(row: Row, n: NodeId, now: int): Costs
  {
    if row.node == n && row.phase.Active? && row.isolationDeadline > now then row.costs else ZERO
  }

  function RowLoads(rows: Table, n: NodeId, now: int): Key -> Costs
  {
    k => if k in rows then RowLoad(rows[k], n, now) else ZERO
  }

  function JobLoads(jobs: Jobs, n: NodeId, now: int): JobId -> Costs
  {
    j => if j in jobs && jobs[j].node == n && jobs[j].state.Running? && jobs[j].leaseExpiresAt > now
         then jobs[j].costs else ZERO
  }

  // All unexpired active recording cost on a node, and the part that
  // competes with a new task for `k`.
  ghost function RecordingLoad(rows: Table, n: NodeId, now: int): Costs
  {
    SumOver(rows.Keys, RowLoads(rows, n, now))
  }

  ghost function OtherRecordingLoad(rows: Table, k: Key, n: NodeId, now: int): Costs
  {
    SumOver(rows.Keys - {k}, RowLoads(rows, n, now))
  }

  ghost function DetectorLoad(jobs: Jobs, n: NodeId, now: int): Costs
  {
    SumOver(jobs.Keys, JobLoads(jobs, n, now))
  }

  function Reserved(reservations: seq<Costs>): Costs
  {
    if reservations == [] then ZERO
    else Reserved(reservations[..|reservations| - 1]).Plus(reservations[|reservations| - 1])
  }

  // A node without a rating offers a quarter of its CPU, memory and disk
  // and no codec slots.
  function Limits(r: Report): Costs
  {
    var share := if r.rated then 1.0 else 0.25;
    Costs(r.cpuCores as real * share, r.memoryBytes as real * share,
          if r.rated then r.decodeSlots else 0.0, if r.rated then r.encodeSlots else 0.0,
          r.diskBytesPerSecond * share)
  }

  function Usable(volumes: seq<Volume>): nat
  {
    if volumes == [] then 0
    else
      var v := volumes[|volumes| - 1];
      Usable(volumes[..|volumes| - 1]) +
      if v.online && !v.readOnly && v.freeBytes > v.reserveBytes then v.freeBytes - v.reserveBytes else 0
  }

  predicate SkewOk(node: Node)
  {
    -MAX_CLOCK_SKEW_SECONDS * 1000 <= node.clockOffsetMs <= MAX_CLOCK_SKEW_SECONDS * 1000
  }

  function Records(task: Task): bool { task.RecordCopy? || task.RecordTranscode? }

  // The checks that need no arithmetic over the tables.
  predicate Healthy(node: Node, n: NodeId, task: Task, now: int, required: Option<NodeId>)
  {
    && !node.revoked && node.online && node.report.Some?
    && (task.DetectorReserved? ==> node.worker)
    && (required.Some? ==> n == required.value)
    && SkewOk(node) && now - node.lastSeenAt <= NODE_UNHEALTHY_SECONDS
  }

  // A recording needs space above the reserve.
  predicate HasSpace(node: Node, task: Task) { Records(task) ==> Usable(node.volumes) > 0 }

  // What the node would carry with the new task, against its limits: the
  // larger of what it reported and what the controller scheduled counts.
  ghost predicate Fits(rows: Table, jobs: Jobs, node: Node, n: NodeId, k: Key, costs: Costs, now: int)
    requires node.report.Some?
  {
    var scheduled := OtherRecordingLoad(rows, k, n, now).Plus(DetectorLoad(jobs, n, now));
    Max(Reserved(node.report.value.reservations), scheduled).Plus(costs).Within(Limits(node.report.value))
  }

  // One placement request over the tables it reads.
  datatype Query = Query(nodes: map<NodeId, Node>, rows: Table, jobs: Jobs, stable: (string, NodeId) -> real,
                         key: Key, task: Task, costs: Costs, now: int, required: Option<NodeId>)

  ghost predicate Eligible(q: Query, n: NodeId)
  {
    && n in q.nodes
    && Healthy(q.nodes[n], n, q.task, q.now, q.required)
    && Fits(q.rows, q.jobs, q.nodes[n], n, q.key, q.costs, q.now)
    && HasSpace(q.nodes[n], q.task)
  }

  function Score(q: Query, n: NodeId): real
    requires n in q.nodes
  {
    Usable(q.nodes[n].volumes) as real / 1073741824.0 + (q.stable)(q.key.camera, n)
  }

  // The lexicographic order of (score, id) pairs.
  predicate Outranks(a: real, n: NodeId, b: real, m: NodeId)
  {
    a > b || (a == b && n > m)
  }

  // `n` is eligible and outranks every other eligible node; no node is
  // chosen only when none is eligible.
  ghost predicate IsChoice(q: Query, r: Option<NodeId>)
  {
    match r
    case Some(n) =>
      && Eligible(q, n)
      && forall m :: m != n && Eligible(q, m) ==> Outranks(Score(q, n), n, Score(q, m), m)
    case None => forall m :: !Eligible(q, m)
  }

  // There is at most one choice, so selection is a function of the tables.
  lemma ChoiceUnique(q: Query, r: Option<NodeId>, t: Option<NodeId>)
    requires IsChoice(q, r) && IsChoice(q, t)
    ensures r == t
  {
    hide Fits; hide Healthy; hide HasSpace; hide Score;
  }

  // The choice as a value.
  ghost function Selected(q: Query): Option<NodeId>
  {
    if exists n: NodeId :: IsChoice(q, Some(n)) then var n: NodeId :| IsChoice(q, Some(n)); Some(n) else None
  }

  lemma SelectedIsChoice(q: Query, r: Option<NodeId>)
    requires IsChoice(q, r)
    ensures Selected(q) == r
  {
    hide Fits; hide Healthy; hide HasSpace; hide Score;
    if n: NodeId :| IsChoice(q, Some(n)) {
      ChoiceUnique(q, Some(n), r);
    }
  }

  // ---------- The computation ----------

  method SumReservations(reservations: seq<Costs>) returns (total: Costs)
    ensures total == Reserved(reservations)
  {
    total := ZERO;
    for i := 0 to |reservations|
      invariant total == Reserved(reservations[..i])
    {
      assert reservations[..i + 1][..i] == reservations[..i];
      total := total.Plus(reservations[i]);
    }
    assert reservations[..|reservations|] == reservations;
  }

  method SumVolumes(volumes: seq<Volume>) returns (total: nat)
    ensures total == Usable(volumes)
  {
    total := 0;
    for i := 0 to |volumes|
      invariant total == Usable(volumes[..i])
    {
      assert volumes[..i + 1][..i] == volumes[..i];
      var v := volumes[i];
      if v.online && !v.readOnly {
        total := total + if v.freeBytes > v.reserveBytes then v.freeBytes - v.reserveBytes else 0;
      }
    }
    assert volumes[..|volumes|] == volumes;
  }

  method SumRecordings(rows: Table, k: Key, n: NodeId, now: int) returns (total: Costs)
    ensures total == OtherRecordingLoad(rows, k, n, now)
  {
    total := ZERO;
    var keys := rows.Keys - {k};
    ghost var w := RowLoads(rows, n, now);
    while keys != {}
      invariant keys <= rows.Keys - {k}
      invariant total.Plus(SumOver(keys, w)) == SumOver(rows.Keys - {k}, w)
      decreases |keys|
    {
      var x :| x in keys;
      SumStep(keys, w, x);
      PlusSwap(total, w(x), SumOver(keys - {x}, w));
      if rows[x].node == n && rows[x].phase.Active? && rows[x].isolationDeadline > now {
        total := total.Plus(rows[x].costs);
      }
      keys := keys - {x};
    }
  }

  method SumDetectors(jobs: Jobs, n: NodeId, now: int) returns (total: Costs)
    ensures total == DetectorLoad(jobs, n, now)
  {
    total := ZERO;
    var ids := jobs.Keys;
    ghost var w := JobLoads(jobs, n, now);
    while ids != {}
      invariant ids <= jobs.Keys
      invariant total.Plus(SumOver(ids, w)) == SumOver(jobs.Keys, w)
      decreases |ids|
    {
      var j :| j in ids;
      SumStep(ids, w, j);
      PlusSwap(total, w(j), SumOver(ids - {j}, w));
      if jobs[j].node == n && jobs[j].state.Running? && jobs[j].leaseExpiresAt > now {
        total := total.Plus(jobs[j].costs);
      }
      ids := ids - {j};
    }
  }

  // One row of the scan: every check of a candidate, in the source's order.
  method CheckCandidate(q: Query, n: NodeId) returns (ok: bool, usable: nat)
    requires n in q.nodes
    ensures ok <==> Eligible(q, n)
    ensures ok ==> usable == Usable(q.nodes[n].volumes)
  {
    hide Usable; hide Reserved; hide OtherRecordingLoad; hide DetectorLoad; hide Limits; hide SkewOk;
    var node := q.nodes[n];
    ok, usable := false, 0;
    if !Healthy(node, n, q.task, q.now, q.required) {
      return;
    }
    var report := node.report.value;
    var reported := SumReservations(report.reservations);
    var recordings := SumRecordings(q.rows, q.key, n, q.now);
    var detectors := SumDetectors(q.jobs, n, q.now);
    if !Max(reported, recordings.Plus(detectors)).Plus(q.costs).Within(Limits(report)) {
      return;
    }
    usable := SumVolumes(node.volumes);
    ok := !(Records(q.task) && usable == 0);
  }

  // The scan of _select_node: visit every joined node row, skip the ones
  // that fail a check, keep the best candidate seen so far.
  method SelectNode(q: Query) returns (r: Option<NodeId>)
    ensures IsChoice(q, r) && Selected(q) == r
  {
    hide Fits; hide Healthy; hide HasSpace;
    r := None;
    var best := 0.0;
    var left := q.nodes.Keys;
    while left != {}
      invariant left <= q.nodes.Keys
      invariant r.Some? ==> Eligible(q, r.value) && r.value !in left && best == Score(q, r.value)
      invariant r.None? ==> forall m :: m !in left ==> !Eligible(q, m)
      invariant r.Some? ==> forall m :: m !in left && m != r.value && Eligible(q, m) ==>
                                          Outranks(best, r.value, Score(q, m), m)
      decreases |left|
    {
      var n :| n in left;
      left := left - {n};
      var ok, usable := CheckCandidate(q, n);
      if ok {
        var score := usable as real / 1073741824.0 + (q.stable)(q.key.camera, n);
        if r.None? || Outranks(score, n, best, r.value) {
          r, best := Some(n), score;
        }
      }
    }
    SelectedIsChoice(q, r);
  }
}
