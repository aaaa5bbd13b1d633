// The controller's recording assignments and segment catalog
// (cluster/cluster_service.py, class ClusterStore).

// What each locked block of ClusterStore does to the tables.
module Assignments {
  import opened ClusterTypes
  import opened Placement
  import opened Options

  datatype Segment = Segment(id: string, key: Key, volume: string, generation: nat, reportedConflict: bool)
  datatype CatalogId = CatalogId(segment: string, node: NodeId, volume: string)
  datatype CatalogRow = CatalogRow(key: Key, generation: nat, conflict: bool)
  type Catalog = map<CatalogId, CatalogRow>

  datatype Store = Store(nodes: map<NodeId, Node>, rows: Table, jobs: Jobs, catalog: Catalog,
                         stable: (string, NodeId) -> real)

  datatype Refusal = NodeNotEligible | CapacityExhausted | Isolation | StaleAssignment | NodeNotFound
                   | RevisionConflict | InvalidResult
  datatype Result<+T> = Ok(value: T) | Refused(why: Refusal)

  datatype Lease = Lease(node: NodeId, generation: nat, expiresAt: int, isolationDeadline: int)

  function LeaseEnd(now: int): int { now + LEASE_SECONDS }
  function IsolationEnd(now: int): int { LeaseEnd(now) + ISOLATION_GRACE_SECONDS }

  function NextGeneration(rows: Table, k: Key): nat
  {
    if k in rows then rows[k].generation + 1 else 1
  }

  // A camera/profile held by another node is fenced until that node's
  // isolation deadline has passed.
  predicate Fenced(rows: Table, k: Key, n: NodeId, now: int)
  {
    k in rows && rows[k].node != n && rows[k].isolationDeadline > now
  }

  function Grant(rows: Table, k: Key, n: NodeId, task: Task, costs: Costs, now: int): Table
  {
    rows[k := Row(n, NextGeneration(rows, k), Active, LeaseEnd(now), IsolationEnd(now), now, task, costs)]
  }

  function QueryOf(s: Store, k: Key, required: Option<NodeId>, task: Task, costs: Costs, now: int): Query
  {
    Query(s.nodes, s.rows, s.jobs, s.stable, k, task, costs, now, required)
  }

  ghost function Assigned(s: Store, k: Key, required: Option<NodeId>, task: Task, costs: Costs, now: int)
    : (Store, Result<Lease>)
  {
    match Selected(QueryOf(s, k, required, task, costs, now))
    case None => (s, Refused(if required.Some? then NodeNotEligible else CapacityExhausted))
    case Some(n) =>
      if Fenced(s.rows, k, n, now) then (s, Refused(Isolation))
      else (s.(rows := Grant(s.rows, k, n, task, costs, now)),
            Ok(Lease(n, NextGeneration(s.rows, k), LeaseEnd(now), IsolationEnd(now))))
  }

  // The row is the caller's: same node, same generation, still active.
  predicate Holds(rows: Table, n: NodeId, k: Key, generation: nat)
  {
    k in rows && rows[k].node == n && rows[k].generation == generation && rows[k].phase.Active?
  }

  function Renewed(s: Store, n: NodeId, k: Key, generation: nat, now: int): (Store, Result<Lease>)
  {
    if !Holds(s.rows, n, k, generation) then (s, Refused(StaleAssignment))
    else
      (s.(rows := s.rows[k := s.rows[k].(leaseExpiresAt := LeaseEnd(now), isolationDeadline := IsolationEnd(now),
                                         updatedAt := now)]),
       Ok(Lease(n, generation, LeaseEnd(now), IsolationEnd(now))))
  }

  // Revocation stops the lease but keeps the isolation deadline: the node
  // may still be recording from its last snapshot.
  function Stopped(rows: Table, n: NodeId): Table
  {
    map k | k in rows :: if rows[k].node == n then rows[k].(phase := Phase.Revoked, leaseExpiresAt := 0) else rows[k]
  }

  function RevokedNode(s: Store, n: NodeId, revision: nat): (Store, Result<nat>)
  {
    if n !in s.nodes then (s, Refused(NodeNotFound))
    else if s.nodes[n].revision != revision then (s, Refused(RevisionConflict))
    else if s.nodes[n].revoked then (s, Ok(revision))
    else (s.(nodes := s.nodes[n := s.nodes[n].(revoked := true, online := false, revision := revision + 1)],
             rows := Stopped(s.rows, n)),
          Ok(revision + 1))
  }

  function Reported(s: Store, n: NodeId, k: Key, generation: nat, phase: Phase, now: int): (Store, Result<nat>)
  {
    if !(phase.Completed? || phase.Failed?) then (s, Refused(InvalidResult))
    else if !Holds(s.rows, n, k, generation) then (s, Refused(StaleAssignment))
    else (s.(rows := s.rows[k := s.rows[k].(phase := phase, leaseExpiresAt := 0, isolationDeadline := 0,
                                            updatedAt := now)]),
          Ok(generation))
  }

  // A reported segment is in conflict unless the reporting node owns the
  // assignment at the reported generation.
  predicate Owned(rows: Table, n: NodeId, g: Segment)
  {
    g.key in rows && rows[g.key].node == n && rows[g.key].generation == g.generation
  }

  function Filed(catalog: Catalog, rows: Table, n: NodeId, g: Segment): Catalog
  {
    catalog[CatalogId(g.id, n, g.volume) :=
              CatalogRow(g.key, g.generation, g.reportedConflict || !Owned(rows, n, g))]
  }

  function FiledAll(catalog: Catalog, rows: Table, n: NodeId, batch: seq<Segment>): Catalog
  {
    if batch == [] then catalog
    else Filed(FiledAll(catalog, rows, n, batch[..|batch| - 1]), rows, n, batch[|batch| - 1])
  }

  function Conflicts(rows: Table, n: NodeId, batch: seq<Segment>): nat
  {
    if batch == [] then 0
    else Conflicts(rows, n, batch[..|batch| - 1]) + if Owned(rows, n, batch[|batch| - 1]) then 0 else 1
  }
}

module ClusterService {
  import opened ClusterTypes
  import opened Placement
  import opened Assignments
  import opened Options

  class ClusterStore {
    var nodes: map<NodeId, Node>
    var assignments: Table
    var analyticsJobs: Jobs
    var locations: Catalog
    const stable: (string, NodeId) -> real

    constructor (stable: (string, NodeId) -> real)
      ensures Tables() == Store(map[], map[], map[], map[], stable)
    {
      nodes, assignments, analyticsJobs, locations := map[], map[], map[], map[];
      this.stable := stable;
    }

    function Tables(): Store
      reads this
    {
      Store(nodes, assignments, analyticsJobs, locations, stable)
    }

    method Assign(k: Key, required: Option<NodeId>, task: Task, costs: Costs, now: int)
      returns (r: Result<Lease>)
      modifies this`assignments
      ensures (Tables(), r) == Assigned(old(Tables()), k, required, task, costs, now)
    {
      hide Fits; hide Score; hide Healthy;
      var q := Query(nodes, assignments, analyticsJobs, stable, k, task, costs, now, required);
      var chosen := SelectNode(q);
      if chosen.None? {
        return Refused(if required.Some? then NodeNotEligible else CapacityExhausted);
      }
      var n := chosen.value;
      // The re-read of the chosen node's row cannot fail: selection already
      // required every condition it checks.
      assert Healthy(nodes[n], n, task, now, required);
      if k in assignments && assignments[k].node != n && assignments[k].isolationDeadline > now {
        return Refused(Isolation);
      }
      var generation := if k in assignments then assignments[k].generation + 1 else 1;
      var leaseExpires := now + LEASE_SECONDS;
      var isolationDeadline := leaseExpires + ISOLATION_GRACE_SECONDS;
      assignments := assignments[k := Row(n, generation, Active, leaseExpires, isolationDeadline, now, task, costs)];
      r := Ok(Lease(n, generation, leaseExpires, isolationDeadline));
    }

    method Renew(n: NodeId, k: Key, generation: nat, now: int) returns (r: Result<Lease>)
      modifies this`assignments
      ensures (Tables(), r) == Renewed(old(Tables()), n, k, generation, now)
    {
      if k !in assignments || assignments[k].node != n || assignments[k].generation != generation
         || assignments[k].phase != Active {
        return Refused(StaleAssignment);
      }
      var leaseExpires := now + LEASE_SECONDS;
      var isolationDeadline := leaseExpires + ISOLATION_GRACE_SECONDS;
      assignments := assignments[k := assignments[k].(leaseExpiresAt := leaseExpires,
                                                      isolationDeadline := isolationDeadline, updatedAt := now)];
      r := Ok(Lease(n, generation, leaseExpires, isolationDeadline));
    }

    method RevokeNode(n: NodeId, expectedRevision: nat) returns (r: Result<nat>)
      modifies this`nodes, this`assignments
      ensures (Tables(), r) == RevokedNode(old(Tables()), n, expectedRevision)
      ensures r.Ok? && !old(nodes)[n].revoked ==>
        n in nodes && nodes[n].revoked && forall k :: k in old(assignments) && old(assignments)[k].node == n ==>
          k in assignments && assignments[k].phase == Phase.Revoked && assignments[k].leaseExpiresAt == 0
          && assignments[k].isolationDeadline == old(assignments)[k].isolationDeadline
    {
      if n !in nodes {
        return Refused(NodeNotFound);
      }
      if nodes[n].revision != expectedRevision {
        return Refused(RevisionConflict);
      }
      if nodes[n].revoked {
        return Ok(nodes[n].revision);
      }
      var revision := nodes[n].revision + 1;
      nodes := nodes[n := nodes[n].(revoked := true, online := false, revision := revision)];
      assignments := map k | k in assignments ::
        if assignments[k].node == n then assignments[k].(phase := Phase.Revoked, leaseExpiresAt := 0)
        else assignments[k];
      r := Ok(revision);
    }

    method ReportJobResult(n: NodeId, k: Key, generation: nat, phase: Phase, now: int) returns (r: Result<nat>)
      modifies this`assignments
      ensures (Tables(), r) == Reported(old(Tables()), n, k, generation, phase, now)
    {
      if phase != Completed && phase != Failed {
        return Refused(InvalidResult);
      }
      if k !in assignments || assignments[k].node != n || assignments[k].generation != generation
         || assignments[k].phase != Active {
        return Refused(StaleAssignment);
      }
      assignments := assignments[k := assignments[k].(phase := phase, leaseExpiresAt := 0, isolationDeadline := 0,
                                                      updatedAt := now)];
      r := Ok(generation);
    }

    method AcceptCatalog(n: NodeId, batch: seq<Segment>) returns (accepted: nat, conflicts: nat)
      modifies this`locations
      ensures accepted == |batch| && conflicts == Conflicts(assignments, n, batch)
      ensures locations == FiledAll(old(locations), assignments, n, batch)
    {
      accepted, conflicts := 0, 0;
      while accepted < |batch|
        invariant accepted <= |batch| && conflicts == Conflicts(assignments, n, batch[..accepted])
        invariant locations == FiledAll(old(locations), assignments, n, batch[..accepted])
      {
        assert batch[..accepted + 1][..accepted] == batch[..accepted];
        var g := batch[accepted];
        var conflict := g.reportedConflict;
        if g.key !in assignments || assignments[g.key].node != n || assignments[g.key].generation != g.generation {
          conflict := true;
          conflicts := conflicts + 1;
        }
        locations := locations[CatalogId(g.id, n, g.volume) := CatalogRow(g.key, g.generation, conflict)];
        accepted := accepted + 1;
      }
      assert batch[..|batch|] == batch;
    }
  }
}
