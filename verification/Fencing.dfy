// The recorder lease protocol end to end: the controller's tables, every
// node's agent loop (cluster/node_agent.py, run) and the check a recorder
// makes before it writes (nvr/nvr_service.py, assignment_generation).

module Fencing {
  import opened ClusterTypes
  import opened Placement
  import opened Assignments
  import opened Options

  // A reply of the controller on its way to the agent that asked.
  datatype Inbox = Nothing | Assignments(rows: Table) | Extended(key: Key, lease: Lease) | Rejection

  // One node. `snapshot` is the file the agent publishes and the recorder
  // reads; `working` is the synchronization reply the agent is processing,
  // read at `readAt` on its own clock.
  datatype Agent = Agent(snapshot: Table, working: Table, readAt: int, clock: int, inbox: Inbox)

  // `since` and `owner` are history: when the current holder of a key first
  // got it, and which node was given each generation.
  datatype World = World(store: Store, now: nat, agents: map<NodeId, Agent>, since: map<Key, nat>,
                         owner: map<(Key, nat), NodeId>)

  // One atomic step. A request and the arrival of its reply are two steps, so
  // a reply can be late; a lost one never arrives; a rejected request leaves
  // the tables as they were.
  datatype Step =
    | Advance(now: nat, clocks: map<NodeId, int>)
    | Join(node: NodeId)
    | UpdateNode(node: NodeId, row: Node)
    | UpdateJobs(jobs: Jobs)
    | Assign(key: Key, required: Option<NodeId>, task: Task, costs: Costs)
    | Revoke(node: NodeId, revision: nat)
    | StrayRenewal(node: NodeId, key: Key, generation: nat)
    | Report(node: NodeId, key: Key, generation: nat, phase: Phase)
    | FileSegments(node: NodeId, batch: seq<Segment>)
    | Synchronize(node: NodeId, kept: set<Key>)
    | RequestRenewal(node: NodeId, key: Key)
    | Receive(node: NodeId)
    | Publish(node: NodeId)
    | Abandon(node: NodeId, cutOff: bool)

  function Init(stable: (string, NodeId) -> real): World
  {
    World(Store(map[], map[], map[], map[], stable), 0, map[], map[], map[])
  }

  // The rows a node gets from GET /internal/v1/assignments; `kept` is the
  // part within the 256-row limit.
  function Payload(rows: Table, n: NodeId, kept: set<Key>): Table
  {
    map k | k in rows && k in kept && rows[k].node == n :: rows[k]
  }

  // The entries the agent publishes.
  function Accepted(working: Table, now: int): Table
  {
    map k | k in working && working[k].phase.Active? && working[k].isolationDeadline > now :: working[k]
  }

  function WithAgent(w: World, n: NodeId, a: Agent): World
  {
    w.(agents := w.agents[n := a])
  }

  ghost function AfterAssign(w: World, k: Key, required: Option<NodeId>, task: Task, costs: Costs): World
  {
    var (store, r) := Assigned(w.store, k, required, task, costs, w.now);
    if r.Refused? then w else Granted(w, k, r.value.node, task, costs)
  }

  // The world after a grant, with its history.
  function Granted(w: World, k: Key, n: NodeId, task: Task, costs: Costs): World
  {
    var kept := k in w.store.rows && w.store.rows[k].node == n && k in w.since;
    w.(store := w.store.(rows := Grant(w.store.rows, k, n, task, costs, w.now)),
       since := w.since[k := if kept then w.since[k] else w.now],
       owner := w.owner[(k, NextGeneration(w.store.rows, k)) := n])
  }

  // The controller's half of a renewal; its reply is on the way.
  function AfterRequest(w: World, n: NodeId, k: Key): World
  {
    if n !in w.agents || k !in w.agents[n].working || !w.agents[n].working[k].phase.Active? then w
    else
      var a := w.agents[n];
      var (store, r) := Renewed(w.store, n, k, a.working[k].generation, w.now);
      WithAgent(w.(store := store), n, a.(inbox := if r.Ok? then Extended(k, r.value) else Rejection))
  }

  function WithLease(e: Row, lease: Lease): Row
  {
    e.(leaseExpiresAt := lease.expiresAt, isolationDeadline := lease.isolationDeadline)
  }

  // The agent takes the reply: a new working copy, a longer lease, or the end
  // of the round.
  function Received(a: Agent): Agent
  {
    match a.inbox
    case Nothing => a
    case Assignments(rows) => a.(working := rows, readAt := a.clock, inbox := Nothing)
    case Extended(k, lease) =>
      a.(working := if k in a.working then a.working[k := WithLease(a.working[k], lease)] else a.working,
         inbox := Nothing)
    case Rejection => a.(working := map[], inbox := Nothing)
  }

  // An entry that is still ahead of a moment.
  predicate Ahead(e: Row, now: int) { e.phase.Active? && e.isolationDeadline > now }

  // The node records the key or may yet do so without asking again: an entry
  // that has not expired is published, in the working copy, or on its way.
  predicate Recording(w: World, n: NodeId, k: Key)
  {
    && n in w.agents
    && var a := w.agents[n];
    || (k in a.snapshot && Ahead(a.snapshot[k], w.now))
    || (k in a.working && Ahead(a.working[k], w.now) && Ahead(a.working[k], a.readAt))
    || (match a.inbox
        case Assignments(rows) => k in rows && Ahead(rows[k], w.now)
        case Extended(x, lease) =>
          x == k && k in a.working && Ahead(WithLease(a.working[k], lease), w.now)
          && Ahead(WithLease(a.working[k], lease), a.readAt)
        case _ => false)
  }

  ghost function Next(w: World, step: Step): World
  {
    match step
    case Advance(now, clocks) => if now < w.now then w else Advanced(w, now, clocks)
    case Join(n) => if n in w.agents then w else WithAgent(w, n, Agent(map[], map[], 0, 0, Nothing))
    case UpdateNode(n, row) => w.(store := w.store.(nodes := w.store.nodes[n := row]))
    case UpdateJobs(jobs) => w.(store := w.store.(jobs := jobs))
    case Assign(k, required, task, costs) => AfterAssign(w, k, required, task, costs)
    case Revoke(n, revision) => w.(store := RevokedNode(w.store, n, revision).0)
    case StrayRenewal(n, k, generation) => w.(store := Renewed(w.store, n, k, generation, w.now).0)
    case Report(n, k, generation, phase) =>
      if Recording(w, n, k) then w else w.(store := Reported(w.store, n, k, generation, phase, w.now).0)
    case FileSegments(n, batch) =>
      w.(store := w.store.(catalog := FiledAll(w.store.catalog, w.store.rows, n, batch)))
    case Synchronize(n, kept) =>
      if n !in w.agents then w
      else WithAgent(w, n, w.agents[n].(inbox := Inbox.Assignments(Payload(w.store.rows, n, kept))))
    case RequestRenewal(n, k) => AfterRequest(w, n, k)
    case Receive(n) => if n !in w.agents then w else WithAgent(w, n, Received(w.agents[n]))
    case Publish(n) =>
      if n !in w.agents then w
      else
        var a := w.agents[n];
        WithAgent(w, n, a.(snapshot := Accepted(a.working, a.readAt), working := map[], inbox := Nothing))
    case Abandon(n, cutOff) =>
      if n !in w.agents then w
      else
        var a := w.agents[n];
        WithAgent(w, n, a.(working := map[], snapshot := if cutOff then map[] else a.snapshot, inbox := Nothing))
  }

  function Advanced(w: World, now: nat, clocks: map<NodeId, int>): World
  {
    w.(now := now,
       agents := map n | n in w.agents ::
         w.agents[n].(clock := if n in clocks then clocks[n] else w.agents[n].clock))
  }

  ghost function Run(w: World, steps: seq<Step>): World
  {
    if steps == [] then w else Next(Run(w, steps[..|steps| - 1]), steps[|steps| - 1])
  }

  // ---------- The invariant ----------

  ghost predicate RowOk(w: World, k: Key)
    requires k in w.store.rows
  {
    var row := w.store.rows[k];
    && 1 <= row.generation
    && row.isolationDeadline <= IsolationEnd(w.now)
    && k in w.since && w.since[k] <= w.now
    && (k, row.generation) in w.owner && w.owner[(k, row.generation)] == row.node
  }

  ghost predicate RowsOk(w: World)
  {
    forall k :: k in w.store.rows ==> RowOk(w, k)
  }

  ghost predicate OwnersOk(w: World)
  {
    forall k, g :: (k, g) in w.owner ==> k in w.store.rows && 1 <= g <= w.store.rows[k].generation
  }

  // Until when a node may hold an unexpired entry: the holder until the row's
  // deadline or, if that was given up, until now; anybody else until the
  // holder got the key.
  ghost function Horizon(w: World, n: NodeId, k: Key): int
    requires k in w.store.rows && k in w.since
  {
    if w.store.rows[k].node != n then w.since[k]
    else if w.store.rows[k].isolationDeadline > w.now then w.store.rows[k].isolationDeadline else w.now
  }

  ghost predicate DeadlineOk(w: World, n: NodeId, k: Key, deadline: int)
  {
    k in w.store.rows && k in w.since && deadline <= Horizon(w, n, k)
  }

  // An entry names its owner and does not outlive its horizon, unless it is
  // too old to be published anyway.
  ghost predicate EntryOk(w: World, n: NodeId, k: Key, e: Row, readAt: int)
  {
    && k in w.store.rows && k in w.since
    && (k, e.generation) in w.owner && w.owner[(k, e.generation)] == n
    && (Ahead(e, readAt) ==> DeadlineOk(w, n, k, e.isolationDeadline))
  }

  ghost predicate TableOk(w: World, n: NodeId, t: Table, readAt: int)
  {
    forall k :: k in t ==> EntryOk(w, n, k, t[k], readAt)
  }

  ghost predicate AgentOk(w: World, n: NodeId, a: Agent)
  {
    && TableOk(w, n, a.snapshot, 0)
    && TableOk(w, n, a.working, a.readAt)
    && match a.inbox
       case Assignments(rows) => TableOk(w, n, rows, 0)
       case Extended(k, lease) => k in a.working ==>
         Ahead(WithLease(a.working[k], lease), a.readAt) ==> DeadlineOk(w, n, k, lease.isolationDeadline)
       case _ => true
  }

  ghost predicate AgentsOk(w: World)
  {
    forall n :: n in w.agents ==> AgentOk(w, n, w.agents[n])
  }

  ghost predicate CatalogOk(w: World)
  {
    forall id :: id in w.store.catalog && !w.store.catalog[id].conflict ==>
      var r := w.store.catalog[id];
      (r.key, r.generation) in w.owner && w.owner[(r.key, r.generation)] == id.node
  }

  ghost predicate Inv(w: World)
  {
    RowsOk(w) && OwnersOk(w) && AgentsOk(w) && CatalogOk(w)
  }

  // ---------- Preservation ----------

  // What every agent's entries need of the next world: keys stay, history
  // only grows, and horizons do not shrink.
  ghost predicate Extends(w: World, v: World)
  {
    && w.store.rows.Keys <= v.store.rows.Keys && w.since.Keys <= v.since.Keys
    && (forall k, g :: (k, g) in w.owner ==> (k, g) in v.owner && v.owner[(k, g)] == w.owner[(k, g)])
    && forall n, k :: k in w.store.rows && k in w.since ==> Horizon(w, n, k) <= Horizon(v, n, k)
  }

  lemma EntryExtends(w: World, v: World, n: NodeId, k: Key, e: Row, readAt: int)
    requires Extends(w, v) && EntryOk(w, n, k, e, readAt)
    ensures EntryOk(v, n, k, e, readAt)
  {
    assert Horizon(w, n, k) <= Horizon(v, n, k);
  }

  lemma TableExtends(w: World, v: World, n: NodeId, t: Table, readAt: int)
    requires Extends(w, v) && TableOk(w, n, t, readAt)
    ensures TableOk(v, n, t, readAt)
  {
    hide Extends; hide EntryOk;
    forall k | k in t ensures EntryOk(v, n, k, t[k], readAt) {
      EntryExtends(w, v, n, k, t[k], readAt);
    }
  }

  lemma AgentExtends(w: World, v: World, n: NodeId, a: Agent)
    requires Extends(w, v) && AgentOk(w, n, a)
    ensures AgentOk(v, n, a)
  {
    hide TableOk;
    TableExtends(w, v, n, a.snapshot, 0);
    TableExtends(w, v, n, a.working, a.readAt);
    match a.inbox
    case Assignments(rows) => TableExtends(w, v, n, rows, 0);
    case Extended(k, lease) =>
      if DeadlineOk(w, n, k, lease.isolationDeadline) {
        assert Horizon(w, n, k) <= Horizon(v, n, k);
      }
    case _ =>
  }

  // Only the clock of an agent moved.
  predicate SameButClock(a: Agent, b: Agent) { b == a.(clock := b.clock) }

  lemma AgentsExtend(w: World, v: World)
    requires Extends(w, v) && AgentsOk(w)
    requires v.agents.Keys == w.agents.Keys && forall n :: n in w.agents ==> SameButClock(w.agents[n], v.agents[n])
    ensures AgentsOk(v)
  {
    hide Extends; hide AgentOk;
    forall n | n in v.agents ensures AgentOk(v, n, v.agents[n]) {
      AgentExtends(w, v, n, w.agents[n]);
      ClockIsFree(v, n, w.agents[n], v.agents[n].clock);
    }
  }

  lemma ClockIsFree(w: World, n: NodeId, a: Agent, clock: int)
    requires AgentOk(w, n, a)
    ensures AgentOk(w, n, a.(clock := clock))
  {
  }

  // The controller's rows with the same holders, later and with deadlines no
  // shorter.
  ghost predicate RowsExtend(w: World, v: World)
  {
    && w.now <= v.now && v.since == w.since && v.owner == w.owner
    && v.store.rows.Keys == w.store.rows.Keys
    && forall k :: k in w.store.rows ==>
         && v.store.rows[k].node == w.store.rows[k].node
         && v.store.rows[k].generation == w.store.rows[k].generation
         && w.store.rows[k].isolationDeadline <= v.store.rows[k].isolationDeadline <= IsolationEnd(v.now)
  }

  lemma RowsExtendIsExtends(w: World, v: World)
    requires RowsExtend(w, v)
    ensures Extends(w, v)
  {
  }

  lemma RowsExtendKeepsInv(w: World, v: World)
    requires Inv(w) && RowsExtend(w, v) && v.store.catalog == w.store.catalog
    requires v.agents.Keys == w.agents.Keys && forall n :: n in w.agents ==> SameButClock(w.agents[n], v.agents[n])
    ensures Inv(v)
  {
    RowsExtendIsExtends(w, v);
    hide Extends; hide AgentOk;
    AgentsExtend(w, v);
    assert RowsOk(v) by {
      forall k | k in v.store.rows ensures RowOk(v, k) {
        assert RowOk(w, k);
      }
    }
  }

  lemma AgentKeepsInv(w: World, n: NodeId, a: Agent)
    requires Inv(w) && AgentOk(w, n, a)
    ensures Inv(WithAgent(w, n, a))
  {
    var v := WithAgent(w, n, a);
    assert Extends(w, v);
    assert RowsOk(v) by {
      forall k | k in v.store.rows ensures RowOk(v, k) {
        assert RowOk(w, k);
      }
    }
    hide Extends; hide AgentOk;
    forall m | m in v.agents ensures AgentOk(v, m, v.agents[m]) {
      if m == n {
        AgentExtends(w, v, n, a);
      } else {
        AgentExtends(w, v, m, w.agents[m]);
      }
    }
  }

  // ---------- The controller's steps ----------

  lemma GrantExtends(w: World, k: Key, n: NodeId, task: Task, costs: Costs)
    requires RowsOk(w) && OwnersOk(w) && !Fenced(w.store.rows, k, n, w.now)
    ensures Extends(w, Granted(w, k, n, task, costs))
  {
    var v := Granted(w, k, n, task, costs);
    forall x, g | (x, g) in w.owner ensures (x, g) in v.owner && v.owner[(x, g)] == w.owner[(x, g)] {
      assert g <= w.store.rows[x].generation;
    }
    forall m, x | x in w.store.rows && x in w.since ensures Horizon(w, m, x) <= Horizon(v, m, x) {
      assert RowOk(w, x);
    }
  }

  lemma GrantKeepsRows(w: World, k: Key, n: NodeId, task: Task, costs: Costs)
    requires RowsOk(w) && OwnersOk(w)
    ensures var v := Granted(w, k, n, task, costs); RowsOk(v) && OwnersOk(v)
  {
    var v := Granted(w, k, n, task, costs);
    forall x | x in v.store.rows ensures RowOk(v, x) {
      if x != k {
        assert RowOk(w, x);
      } else if k in w.store.rows {
        assert RowOk(w, k);
      }
    }
  }

  lemma AssignKeepsInv(w: World, k: Key, required: Option<NodeId>, task: Task, costs: Costs)
    requires Inv(w)
    ensures Inv(AfterAssign(w, k, required, task, costs))
  {
    hide Selected; hide RowsOk; hide OwnersOk; hide AgentsOk; hide Grant;
    var r := Assigned(w.store, k, required, task, costs, w.now).1;
    if r.Ok? {
      var v := Granted(w, k, r.value.node, task, costs);
      GrantKeepsRows(w, k, r.value.node, task, costs);
      GrantExtends(w, k, r.value.node, task, costs);
      AgentsExtend(w, v);
      CatalogExtends(w, v);
    }
  }

  lemma CatalogExtends(w: World, v: World)
    requires CatalogOk(w) && v.store.catalog == w.store.catalog && Extends(w, v)
    ensures CatalogOk(v)
  {
  }

  lemma {:induction false} FilingKeepsCatalog(w: World, n: NodeId, batch: seq<Segment>)
    requires RowsOk(w) && CatalogOk(w)
    ensures CatalogOk(w.(store := w.store.(catalog := FiledAll(w.store.catalog, w.store.rows, n, batch))))
  {
    if batch != [] {
      FilingKeepsCatalog(w, n, batch[..|batch| - 1]);
    }
  }

  lemma FilingKeepsInv(w: World, n: NodeId, batch: seq<Segment>)
    requires Inv(w)
    ensures Inv(w.(store := w.store.(catalog := FiledAll(w.store.catalog, w.store.rows, n, batch))))
  {
    var v := w.(store := w.store.(catalog := FiledAll(w.store.catalog, w.store.rows, n, batch)));
    FilingKeepsCatalog(w, n, batch);
    var u := v.(store := v.store.(catalog := w.store.catalog));
    assert u == w;
    StoreRestIsFree(w, v.store.nodes, v.store.jobs, v.store.catalog);
  }

  // Nodes and jobs play no part in the invariant.
  lemma StoreRestIsFree(w: World, nodes: map<NodeId, Node>, jobs: Jobs, catalog: Catalog)
    requires RowsOk(w) && OwnersOk(w) && AgentsOk(w)
    ensures var v := w.(store := w.store.(nodes := nodes, jobs := jobs, catalog := catalog));
      RowsOk(v) && OwnersOk(v) && AgentsOk(v)
  {
    var v := w.(store := w.store.(nodes := nodes, jobs := jobs, catalog := catalog));
    assert Extends(w, v);
    forall k | k in v.store.rows ensures RowOk(v, k) {
      assert RowOk(w, k);
    }
    hide Extends;
    AgentsExtend(w, v);
  }

  // A report by a node that no longer records the key frees it at once.
  lemma ReportKeepsInv(w: World, n: NodeId, k: Key, generation: nat, phase: Phase)
    requires Inv(w) && !Recording(w, n, k)
    ensures Inv(w.(store := Reported(w.store, n, k, generation, phase, w.now).0))
  {
    var v := w.(store := Reported(w.store, n, k, generation, phase, w.now).0);
    if v.store != w.store {
      assert RowOk(w, k);
      forall x | x in v.store.rows ensures RowOk(v, x) {
        assert RowOk(w, x);
      }
      forall m | m in v.agents ensures AgentOk(v, m, v.agents[m]) {
        ReportKeepsAgent(w, n, k, v, m);
      }
    }
  }

  // Horizons stay, but for the reporter's and its key, which becomes now.
  lemma ReportHorizons(w: World, n: NodeId, k: Key, v: World, m: NodeId, x: Key)
    requires k in w.store.rows && w.store.rows[k].node == n && x in w.store.rows && x in w.since && RowsOk(w)
    requires v == w.(store := w.store.(rows := v.store.rows)) && v.store.rows.Keys == w.store.rows.Keys
    requires forall y :: y in w.store.rows && y != k ==> v.store.rows[y] == w.store.rows[y]
    requires v.store.rows[k].node == n && v.store.rows[k].isolationDeadline == 0
    ensures Horizon(v, m, x) == if m == n && x == k then w.now else Horizon(w, m, x)
  {
  }

  lemma ReportKeepsEntry(w: World, n: NodeId, k: Key, v: World, m: NodeId, x: Key, e: Row, readAt: int)
    requires k in w.store.rows && w.store.rows[k].node == n && RowsOk(w)
    requires v == w.(store := w.store.(rows := v.store.rows)) && v.store.rows.Keys == w.store.rows.Keys
    requires forall y :: y in w.store.rows && y != k ==> v.store.rows[y] == w.store.rows[y]
    requires v.store.rows[k].node == n && v.store.rows[k].isolationDeadline == 0
    requires EntryOk(w, m, x, e, readAt) && (m == n && x == k ==> !(Ahead(e, w.now) && Ahead(e, readAt)))
    ensures EntryOk(v, m, x, e, readAt)
  {
    ReportHorizons(w, n, k, v, m, x);
  }

  lemma ReportKeepsAgent(w: World, n: NodeId, k: Key, v: World, m: NodeId)
    requires k in w.store.rows && w.store.rows[k].node == n && RowsOk(w)
    requires v == w.(store := w.store.(rows := v.store.rows)) && v.store.rows.Keys == w.store.rows.Keys
    requires forall y :: y in w.store.rows && y != k ==> v.store.rows[y] == w.store.rows[y]
    requires v.store.rows[k].node == n && v.store.rows[k].isolationDeadline == 0
    requires m in w.agents && AgentOk(w, m, w.agents[m]) && !Recording(w, n, k)
    ensures AgentOk(v, m, w.agents[m])
  {
    hide EntryOk; hide RowsOk; hide DeadlineOk;
    var a := w.agents[m];
    forall x | x in a.snapshot ensures EntryOk(v, m, x, a.snapshot[x], 0) {
      ReportKeepsEntry(w, n, k, v, m, x, a.snapshot[x], 0);
    }
    forall x | x in a.working ensures EntryOk(v, m, x, a.working[x], a.readAt) {
      ReportKeepsEntry(w, n, k, v, m, x, a.working[x], a.readAt);
    }
    match a.inbox
    case Assignments(rows) =>
      forall x | x in rows ensures EntryOk(v, m, x, rows[x], 0) {
        ReportKeepsEntry(w, n, k, v, m, x, rows[x], 0);
      }
    case Extended(x, lease) =>
      if x in a.working && Ahead(WithLease(a.working[x], lease), a.readAt) {
        ReportKeepsDeadline(w, n, k, v, m, x, lease.isolationDeadline);
      }
    case _ =>
  }

  lemma ReportKeepsDeadline(w: World, n: NodeId, k: Key, v: World, m: NodeId, x: Key, deadline: int)
    requires k in w.store.rows && w.store.rows[k].node == n && RowsOk(w)
    requires v == w.(store := w.store.(rows := v.store.rows)) && v.store.rows.Keys == w.store.rows.Keys
    requires forall y :: y in w.store.rows && y != k ==> v.store.rows[y] == w.store.rows[y]
    requires v.store.rows[k].node == n && v.store.rows[k].isolationDeadline == 0
    requires DeadlineOk(w, m, x, deadline) && (m == n && x == k ==> deadline <= w.now)
    ensures DeadlineOk(v, m, x, deadline)
  {
    ReportHorizons(w, n, k, v, m, x);
  }

  lemma ControllerStepExtends(w: World, step: Step)
    requires RowsOk(w) && (step.Revoke? || step.StrayRenewal?)
    ensures RowsExtend(w, Next(w, step))
  {
    hide RowsOk;
    match step
    case Revoke(n, revision) => RevocationExtends(w, n, revision);
    case StrayRenewal(n, k, generation) => RenewalExtends(w, n, k, generation);
  }

  lemma RevocationExtends(w: World, n: NodeId, revision: nat)
    requires RowsOk(w)
    ensures RowsExtend(w, w.(store := RevokedNode(w.store, n, revision).0))
  {
    forall k | k in w.store.rows ensures w.store.rows[k].isolationDeadline <= IsolationEnd(w.now) {
      assert RowOk(w, k);
    }
  }

  lemma RenewalExtends(w: World, n: NodeId, k: Key, generation: nat)
    requires RowsOk(w)
    ensures RowsExtend(w, w.(store := Renewed(w.store, n, k, generation, w.now).0))
  {
    forall x | x in w.store.rows ensures w.store.rows[x].isolationDeadline <= IsolationEnd(w.now) {
      assert RowOk(w, x);
    }
  }

  // ---------- The agents' steps ----------

  lemma RequestKeepsInv(w: World, n: NodeId, k: Key)
    requires Inv(w)
    ensures Inv(AfterRequest(w, n, k))
  {
    if n in w.agents && k in w.agents[n].working && w.agents[n].working[k].phase.Active? {
      var a := w.agents[n];
      var generation := a.working[k].generation;
      var r := Renewed(w.store, n, k, generation, w.now).1;
      ControllerStepExtends(w, StrayRenewal(n, k, generation));
      var v := Next(w, StrayRenewal(n, k, generation));
      RowsExtendKeepsInv(w, v);
      hide Inv; hide RowsExtend;
      InvParts(v, n);
      RequestedAgent(v, n, a, k, r);
      AgentKeepsInv(v, n, a.(inbox := if r.Ok? then Extended(k, r.value) else Rejection));
    }
  }

  lemma RequestedAgent(v: World, n: NodeId, a: Agent, k: Key, r: Result<Lease>)
    requires AgentOk(v, n, a) && k in a.working && k in v.store.rows && k in v.since
    requires r.Ok? ==> v.store.rows[k].node == n && v.store.rows[k].isolationDeadline == r.value.isolationDeadline
    ensures AgentOk(v, n, a.(inbox := if r.Ok? then Extended(k, r.value) else Rejection))
  {
  }

  lemma InvParts(w: World, n: NodeId)
    requires Inv(w)
    ensures n in w.agents ==> AgentOk(w, n, w.agents[n])
    ensures n in w.agents ==> forall k :: k in w.agents[n].working ==> k in w.store.rows && k in w.since
  {
  }

  lemma ReceivedAgent(w: World, n: NodeId, a: Agent)
    requires AgentOk(w, n, a)
    ensures AgentOk(w, n, Received(a))
  {
    match a.inbox
    case Assignments(rows) => StaleIsWeaker(w, n, rows, a.clock);
    case Extended(k, lease) =>
      var b := Received(a);
      forall x | x in b.working ensures EntryOk(w, n, x, b.working[x], b.readAt) {
        assert EntryOk(w, n, x, a.working[x], a.readAt);
      }
    case _ =>
  }

  // An entry that is fine at 0 is fine at any reading time.
  lemma StaleIsWeaker(w: World, n: NodeId, t: Table, readAt: int)
    requires TableOk(w, n, t, 0)
    ensures TableOk(w, n, t, readAt)
  {
    forall k | k in t ensures EntryOk(w, n, k, t[k], readAt) {
      assert EntryOk(w, n, k, t[k], 0);
    }
  }

  lemma AgentStepKeepsInv(w: World, n: NodeId, step: Step)
    requires Inv(w) && n in w.agents
    requires step == Publish(n) || step == Receive(n) || (step.Synchronize? && step.node == n)
          || (step.Abandon? && step.node == n)
    ensures Inv(Next(w, step))
  {
    hide RowsOk; hide OwnersOk; hide CatalogOk;
    InvParts(w, n);
    var a := w.agents[n];
    match step
    case Publish(_) =>
      PublishedAgent(w, n, a);
      AgentKeepsInv(w, n, a.(snapshot := Accepted(a.working, a.readAt), working := map[], inbox := Nothing));
    case Receive(_) =>
      ReceivedAgent(w, n, a);
      AgentKeepsInv(w, n, Received(a));
    case Abandon(_, cutOff) =>
      AgentKeepsInv(w, n, a.(working := map[], snapshot := if cutOff then map[] else a.snapshot, inbox := Nothing));
    case Synchronize(_, kept) =>
      SynchronizedAgent(w, n, kept);
      AgentKeepsInv(w, n, a.(inbox := Inbox.Assignments(Payload(w.store.rows, n, kept))));
  }

  lemma PublishedAgent(w: World, n: NodeId, a: Agent)
    requires AgentOk(w, n, a)
    ensures AgentOk(w, n, a.(snapshot := Accepted(a.working, a.readAt), working := map[], inbox := Nothing))
  {
    var published := Accepted(a.working, a.readAt);
    forall k | k in published ensures EntryOk(w, n, k, published[k], 0) {
      assert EntryOk(w, n, k, a.working[k], a.readAt);
    }
  }

  lemma SynchronizedAgent(w: World, n: NodeId, kept: set<Key>)
    requires Inv(w) && n in w.agents && AgentOk(w, n, w.agents[n])
    ensures AgentOk(w, n, w.agents[n].(inbox := Inbox.Assignments(Payload(w.store.rows, n, kept))))
  {
    var payload := Payload(w.store.rows, n, kept);
    forall k | k in payload ensures EntryOk(w, n, k, payload[k], 0) {
      assert RowOk(w, k);
    }
  }

  // ---------- All steps ----------

  lemma AdvanceKeepsInv(w: World, now: nat, clocks: map<NodeId, int>)
    requires Inv(w)
    ensures Inv(Next(w, Advance(now, clocks)))
  {
    if now >= w.now {
      forall k | k in w.store.rows ensures RowOk(w, k) {
      }
      RowsExtendKeepsInv(w, Advanced(w, now, clocks));
    }
  }

  lemma StepKeepsInv(w: World, step: Step)
    requires Inv(w)
    ensures Inv(Next(w, step))
  {
    match step
    case Revoke(_, _) =>
      ControllerStepExtends(w, step);
      RowsExtendKeepsInv(w, Next(w, step));
    case StrayRenewal(_, _, _) =>
      ControllerStepExtends(w, step);
      RowsExtendKeepsInv(w, Next(w, step));
    case UpdateNode(n, row) => StoreRestIsFree(w, w.store.nodes[n := row], w.store.jobs, w.store.catalog);
    case UpdateJobs(jobs) => StoreRestIsFree(w, w.store.nodes, jobs, w.store.catalog);
    case _ => OtherStepKeepsInv(w, step);
  }

  lemma OtherStepKeepsInv(w: World, step: Step)
    requires Inv(w) && !step.Revoke? && !step.StrayRenewal? && !step.UpdateNode? && !step.UpdateJobs?
    ensures Inv(Next(w, step))
  {
    hide Inv;
    match step
    case Advance(now, clocks) => AdvanceKeepsInv(w, now, clocks);
    case Join(n) =>
      if n !in w.agents {
        AgentKeepsInv(w, n, Agent(map[], map[], 0, 0, Nothing));
      }
    case Assign(k, required, task, costs) => AssignKeepsInv(w, k, required, task, costs);
    case FileSegments(n, batch) => FilingKeepsInv(w, n, batch);
    case RequestRenewal(n, k) => RequestKeepsInv(w, n, k);
    case Report(n, k, generation, phase) =>
      if !Recording(w, n, k) {
        ReportKeepsInv(w, n, k, generation, phase);
      }
    case Synchronize(n, _) => if n in w.agents { AgentStepKeepsInv(w, n, step); }
    case Receive(n) => if n in w.agents { AgentStepKeepsInv(w, n, step); }
    case Publish(n) => if n in w.agents { AgentStepKeepsInv(w, n, step); }
    case Abandon(n, _) => if n in w.agents { AgentStepKeepsInv(w, n, step); }
  }

  lemma {:induction false} RunKeepsInv(w: World, steps: seq<Step>)
    requires Inv(w)
    ensures Inv(Run(w, steps))
  {
    hide Inv; hide Next;
    if steps != [] {
      RunKeepsInv(w, steps[..|steps| - 1]);
      StepKeepsInv(Run(w, steps[..|steps| - 1]), steps[|steps| - 1]);
    }
  }

  lemma InitInv(stable: (string, NodeId) -> real)
    ensures Inv(Init(stable))
  {
  }

  lemma {:induction false} RunConcat(w: World, a: seq<Step>, b: seq<Step>)
    ensures Run(w, a + b) == Run(Run(w, a), b)
  {
    hide Next;
    if b == [] {
      assert a + b == a;
    } else {
      RunConcat(w, a, b[..|b| - 1]);
      assert (a + b)[..|a + b| - 1] == a + b[..|b| - 1];
    }
  }

  // ---------- Fencing ----------

  // The recorder's check: an active entry whose isolation deadline is still
  // ahead of the node's own clock.
  predicate Passes(w: World, n: NodeId, k: Key)
  {
    && n in w.agents && k in w.agents[n].snapshot
    && var e := w.agents[n].snapshot[k];
    e.phase.Active? && e.isolationDeadline > w.agents[n].clock && e.generation > 0
  }

  // Whatever the clocks, an entry that passes at a moment not before the
  // grant of the present holder is the holder's own.
  lemma PassingIsHolder(w: World, n: NodeId, k: Key, lag: nat)
    requires Inv(w) && Passes(w, n, k) && w.now - lag <= w.agents[n].clock
    ensures k in w.store.rows && k in w.since && w.since[k] <= w.now
    ensures n != w.store.rows[k].node ==> w.now < w.since[k] + lag
  {
    InvParts(w, n);
    assert EntryOk(w, n, k, w.agents[n].snapshot[k], 0);
    assert RowOk(w, k);
  }

  // A node that is not the holder passes the check only within `lag`
  // seconds of the grant that took the key away from it.
  lemma OldHolderIsFenced(stable: (string, NodeId) -> real, steps: seq<Step>, n: NodeId, k: Key, lag: nat)
    requires var w := Run(Init(stable), steps); Passes(w, n, k) && w.now - lag <= w.agents[n].clock
    ensures var w := Run(Init(stable), steps);
      && k in w.store.rows && k in w.since && w.since[k] <= w.now
      && (n != w.store.rows[k].node ==> w.now < w.since[k] + lag)
  {
    hide Inv;
    InitInv(stable);
    RunKeepsInv(Init(stable), steps);
    PassingIsHolder(Run(Init(stable), steps), n, k, lag);
  }

  // While no node's clock lags the controller's, at most one node passes.
  lemma AtMostOneRecorder(stable: (string, NodeId) -> real, steps: seq<Step>, n: NodeId, m: NodeId, k: Key)
    requires var w := Run(Init(stable), steps);
      Passes(w, n, k) && Passes(w, m, k) && w.now <= w.agents[n].clock && w.now <= w.agents[m].clock
    ensures var rows := Run(Init(stable), steps).store.rows; k in rows && n == m == rows[k].node
  {
    OldHolderIsFenced(stable, steps, n, k, 0);
    OldHolderIsFenced(stable, steps, m, k, 0);
  }

  // ---------- Generations ----------

  ghost predicate Later(w: World, v: World)
  {
    && w.owner.Keys <= v.owner.Keys
    && (forall k, g :: (k, g) in w.owner ==> v.owner[(k, g)] == w.owner[(k, g)])
    && forall k :: k in w.store.rows ==>
         k in v.store.rows && w.store.rows[k].generation <= v.store.rows[k].generation
  }

  lemma GrantIsLater(w: World, k: Key, n: NodeId, task: Task, costs: Costs)
    requires RowsOk(w) && OwnersOk(w)
    ensures Later(w, Granted(w, k, n, task, costs))
  {
  }

  lemma RowsExtendIsLater(w: World, v: World)
    requires RowsExtend(w, v)
    ensures Later(w, v)
  {
  }

  lemma ReportIsLater(w: World, n: NodeId, k: Key, generation: nat, phase: Phase)
    ensures Later(w, w.(store := Reported(w.store, n, k, generation, phase, w.now).0))
  {
  }

  lemma RequestIsLater(w: World, n: NodeId, k: Key)
    requires Inv(w)
    ensures Later(w, Next(w, RequestRenewal(n, k)))
  {
    if n in w.agents && k in w.agents[n].working {
      var stray := StrayRenewal(n, k, w.agents[n].working[k].generation);
      ControllerStepExtends(w, stray);
      RowsExtendIsLater(w, Next(w, stray));
    }
  }

  lemma InvTables(w: World)
    requires Inv(w)
    ensures RowsOk(w) && OwnersOk(w)
  {
  }

  lemma StepIsLater(w: World, step: Step)
    requires Inv(w)
    ensures Later(w, Next(w, step))
  {
    hide Next; hide Inv; hide Later; hide RowsExtend;
    InvTables(w);
    match step
    case Revoke(_, _) =>
      ControllerStepExtends(w, step);
      RowsExtendIsLater(w, Next(w, step));
    case StrayRenewal(_, _, _) =>
      ControllerStepExtends(w, step);
      RowsExtendIsLater(w, Next(w, step));
    case RequestRenewal(n, k) => RequestIsLater(w, n, k);
    case _ => OtherStepIsLater(w, step);
  }

  lemma OtherStepIsLater(w: World, step: Step)
    requires RowsOk(w) && OwnersOk(w) && !step.Revoke? && !step.StrayRenewal? && !step.RequestRenewal?
    ensures Later(w, Next(w, step))
  {
    hide Selected; hide FiledAll; hide Recording; hide Received; hide Grant; hide Reported; hide Payload; hide Accepted;
    hide RowsOk; hide OwnersOk;
    match step
    case Assign(k, required, task, costs) =>
      var r := Assigned(w.store, k, required, task, costs, w.now).1;
      if r.Ok? {
        GrantIsLater(w, k, r.value.node, task, costs);
      }
    case Report(n, k, generation, phase) => ReportIsLater(w, n, k, generation, phase);
    case _ =>
  }

  lemma {:induction false} RunIsLater(w: World, steps: seq<Step>)
    requires Inv(w)
    ensures Later(w, Run(w, steps))
  {
    if steps != [] {
      var before := steps[..|steps| - 1];
      RunIsLater(w, before);
      RunKeepsInv(w, before);
      StepIsLater(Run(w, before), steps[|steps| - 1]);
    }
  }

  // Along any continuation of any run, a key keeps its row, its generation
  // never decreases, and two moments with the same generation have the same
  // holder: every change of holder comes with a larger generation.
  lemma GenerationsNameOneHolder(stable: (string, NodeId) -> real, steps: seq<Step>, more: seq<Step>, k: Key)
    requires k in Run(Init(stable), steps).store.rows
    ensures var w := Run(Init(stable), steps);
      var v := Run(Init(stable), steps + more);
      && k in v.store.rows
      && w.store.rows[k].generation <= v.store.rows[k].generation
      && (w.store.rows[k].node != v.store.rows[k].node ==>
            w.store.rows[k].generation < v.store.rows[k].generation)
  {
    var w := Run(Init(stable), steps);
    InitInv(stable);
    RunKeepsInv(Init(stable), steps);
    RunConcat(Init(stable), steps, more);
    RunIsLater(w, more);
    RunKeepsInv(w, more);
    assert RowOk(w, k) && RowOk(Run(w, more), k);
  }

  ghost predicate HeldAt(stable: (string, NodeId) -> real, steps: seq<Step>, i: nat, k: Key, g: nat, n: NodeId)
    requires i <= |steps|
  {
    var w := Run(Init(stable), steps[..i]);
    k in w.store.rows && w.store.rows[k].generation == g && w.store.rows[k].node == n
  }

  // The history really is history: a recorded owner held the key with that
  // generation at some earlier moment of the run.
  lemma {:induction false} OwnersHeld(stable: (string, NodeId) -> real, steps: seq<Step>, k: Key, g: nat)
    requires (k, g) in Run(Init(stable), steps).owner
    ensures exists i: nat :: i <= |steps| && HeldAt(stable, steps, i, k, g, Run(Init(stable), steps).owner[(k, g)])
  {
    hide Selected; hide FiledAll;
    var before := steps[..|steps| - 1];
    var w := Run(Init(stable), before);
    var v := Run(Init(stable), steps);
    if (k, g) in w.owner && w.owner[(k, g)] == v.owner[(k, g)] {
      OwnersHeld(stable, before, k, g);
      var i: nat :| i <= |before| && HeldAt(stable, before, i, k, g, w.owner[(k, g)]);
      assert before[..i] == steps[..i];
      assert HeldAt(stable, steps, i, k, g, v.owner[(k, g)]);
    } else {
      assert steps[..|steps|] == steps;
      assert HeldAt(stable, steps, |steps|, k, g, v.owner[(k, g)]);
    }
  }

  // Every catalog row not marked as a conflict was filed by a node that
  // held the key with that generation, however the key moved afterwards.
  lemma CatalogRowsAreOwned(stable: (string, NodeId) -> real, steps: seq<Step>, id: CatalogId)
    requires var c := Run(Init(stable), steps).store.catalog; id in c && !c[id].conflict
    ensures var r := Run(Init(stable), steps).store.catalog[id];
      exists i: nat :: i <= |steps| && HeldAt(stable, steps, i, r.key, r.generation, id.node)
  {
    InitInv(stable);
    RunKeepsInv(Init(stable), steps);
    var w := Run(Init(stable), steps);
    var r := w.store.catalog[id];
    OwnersHeld(stable, steps, r.key, r.generation);
  }
}
