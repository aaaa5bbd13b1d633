// What the recorder lease protocol does for its users: whom a grant, a
// renewal, a revocation and a job result bind, and for how long
// (cluster/cluster_service.py, cluster/node_agent.py).

module LeaseEffects {
  import opened ClusterTypes
  import opened Placement
  import opened Assignments
  import opened Capacity
  import opened Fencing
  import opened AgentProtocol
  import opened Options

  // ---------- A row that is not active ----------

  predicate Inactive(rows: Table, k: Key) { k in rows && rows[k].phase != Active }

  // Nobody can renew the key, whatever generation and moment.
  ghost predicate NobodyRenews(s: Store, k: Key)
  {
    forall n, g, now :: Renewed(s, n, k, g, now).1 == Refused(StaleAssignment)
  }

  lemma InactiveIsStale(s: Store, k: Key)
    requires Inactive(s.rows, k)
    ensures NobodyRenews(s, k)
  {
  }

  // Only a grant of the key makes its row active again.
  lemma InactiveStep(w: World, step: Step, k: Key)
    requires Inactive(w.store.rows, k) && !Grants(w, step, k)
    ensures Inactive(Next(w, step).store.rows, k)
    ensures SameRow(w, Next(w, step), k)
  {
    hide Recording; hide Received; hide FiledAll; hide Payload; hide Accepted; hide Selected;
  }

  // A row that changes at most its phase and lease.
  predicate SameRow(w: World, v: World, k: Key)
  {
    k in w.store.rows && k in v.store.rows && v.store.rows[k].node == w.store.rows[k].node
    && v.store.rows[k].isolationDeadline == w.store.rows[k].isolationDeadline
  }

  // The step is a successful assignment of the key.
  ghost predicate Grants(w: World, step: Step, k: Key)
  {
    step.Assign? && step.key == k && Assigned(w.store, k, step.required, step.task, step.costs, w.now).1.Ok?
  }

  ghost predicate NeverGrants(w: World, steps: seq<Step>, k: Key)
  {
    forall i :: 0 <= i < |steps| ==> !Grants(Run(w, steps[..i]), steps[i], k)
  }

  lemma {:induction false} InactiveStays(w: World, more: seq<Step>, k: Key)
    requires Inactive(w.store.rows, k) && NeverGrants(w, more, k)
    ensures Inactive(Run(w, more).store.rows, k) && SameRow(w, Run(w, more), k)
  {
    if more != [] {
      hide Next; hide Grants;
      var before := more[..|more| - 1];
      forall i | 0 <= i < |before| ensures !Grants(Run(w, before[..i]), before[i], k) {
        assert before[..i] == more[..i];
      }
      InactiveStays(w, before, k);
      assert more[..|before|] == before;
      InactiveStep(Run(w, before), more[|before|], k);
    }
  }

  // ---------- Job results ----------

  // After an accepted result the key is free: in every continuation without a
  // new grant nobody can renew it, and no assignment of it finds it isolated.
  lemma ReportFreesKey(w: World, n: NodeId, k: Key, generation: nat, phase: Phase, more: seq<Step>)
    requires phase.Completed? || phase.Failed?
    requires k in w.store.rows && w.store.rows[k].node == n && w.store.rows[k].generation == generation
             && w.store.rows[k].phase.Active? && !Recording(w, n, k)
    requires NeverGrants(Next(w, Step.Report(n, k, generation, phase)), more, k)
    ensures var v := Next(w, Step.Report(n, k, generation, phase));
      k in v.store.rows && v.store.rows[k].phase == phase && v.store.rows[k].node == n
    ensures var v := Run(Next(w, Step.Report(n, k, generation, phase)), more);
      && k in v.store.rows && !v.store.rows[k].phase.Active? && NobodyRenews(v.store, k)
      && forall required, task, costs :: Assigned(v.store, k, required, task, costs, v.now).1 != Refused(Isolation)
  {
    hide Recording; hide Selected; hide Run;
    var v := Next(w, Step.Report(n, k, generation, phase));
    InactiveStays(v, more, k);
    InactiveIsStale(Run(v, more).store, k);
  }

  // ---------- Revocation ----------

  // A node that was revoked, and nothing of it is active.
  ghost predicate OutOfService(s: Store, n: NodeId)
  {
    n in s.nodes && s.nodes[n].revoked && forall k :: k in s.rows && s.rows[k].node == n ==> !s.rows[k].phase.Active?
  }

  // No report of the node's row takes the revocation back.
  predicate NotReadmitted(steps: seq<Step>, n: NodeId)
  {
    forall i :: 0 <= i < |steps| ==> !(steps[i].UpdateNode? && steps[i].node == n && !steps[i].row.revoked)
  }

  lemma RevokedIsNotAssigned(s: Store, n: NodeId, k: Key, required: Option<NodeId>, task: Task, costs: Costs, now: int)
    requires n in s.nodes && s.nodes[n].revoked
    ensures var r := Assigned(s, k, required, task, costs, now).1; r.Ok? ==> r.value.node != n
  {
    hide Fits; hide HasSpace; hide Score; hide SumOver; hide Limits;
    AssignAdmits(s, k, required, task, costs, now);
  }

  lemma OutOfServiceStep(w: World, step: Step, n: NodeId)
    requires OutOfService(w.store, n) && NotReadmitted([step], n)
    ensures OutOfService(Next(w, step).store, n)
  {
    hide Recording; hide Received; hide FiledAll; hide Payload; hide Accepted; hide Selected;
    assert [step][0] == step;
    if step.Assign? {
      RevokedIsNotAssigned(w.store, n, step.key, step.required, step.task, step.costs, w.now);
    }
  }

  // No active entry for the key, published, in work or on its way, goes on
  // beyond a moment.
  predicate EndsBy(a: Agent, k: Key, end: int)
  {
    && (k in a.snapshot && a.snapshot[k].phase.Active? ==> a.snapshot[k].isolationDeadline <= end)
    && (k in a.working && Ahead(a.working[k], a.readAt) ==> a.working[k].isolationDeadline <= end)
    && match a.inbox
       case Assignments(rows) => k in rows && rows[k].phase.Active? ==> rows[k].isolationDeadline <= end
       case Extended(x, lease) =>
         x == k && k in a.working && Ahead(WithLease(a.working[k], lease), a.readAt) ==> lease.isolationDeadline <= end
       case _ => true
  }

  ghost predicate EntriesEndBy(w: World, n: NodeId, k: Key, end: int)
  {
    n in w.agents ==> EndsBy(w.agents[n], k, end)
  }

  lemma EntriesEndStep(w: World, step: Step, n: NodeId, k: Key, end: int)
    requires OutOfService(w.store, n) && EntriesEndBy(w, n, k, end)
    ensures EntriesEndBy(Next(w, step), n, k, end)
  {
    hide Recording; hide FiledAll; hide Selected; hide Reported; hide RevokedNode; hide Assigned;
  }

  lemma {:induction false} OutOfServiceRun(w: World, more: seq<Step>, n: NodeId, k: Key, end: int)
    requires OutOfService(w.store, n) && NotReadmitted(more, n) && EntriesEndBy(w, n, k, end)
    ensures OutOfService(Run(w, more).store, n) && EntriesEndBy(Run(w, more), n, k, end)
  {
    if more != [] {
      hide Next; hide OutOfService; hide EntriesEndBy;
      var before, step := more[..|more| - 1], more[|more| - 1];
      OutOfServiceRun(w, before, n, k, end);
      OutOfServiceStep(Run(w, before), step, n);
      EntriesEndStep(Run(w, before), step, n, k, end);
    }
  }

  // Until when the node's entries may go on.
  ghost function LastEnd(w: World, n: NodeId, k: Key): int
  {
    if k in w.store.rows && w.store.rows[k].node == n && w.store.rows[k].isolationDeadline > w.now
    then w.store.rows[k].isolationDeadline else w.now
  }

  lemma EntriesEndNow(w: World, n: NodeId, k: Key)
    requires Inv(w)
    ensures EntriesEndBy(w, n, k, LastEnd(w, n, k)) && LastEnd(w, n, k) <= w.now + 150
  {
    if k in w.store.rows {
      assert RowOk(w, k);
    }
    if n in w.agents {
      var a := w.agents[n];
      if k in a.snapshot {
        assert EntryOk(w, n, k, a.snapshot[k], 0);
      }
      if k in a.working {
        assert EntryOk(w, n, k, a.working[k], a.readAt);
      }
      if a.inbox.Assignments? && k in a.inbox.rows {
        assert EntryOk(w, n, k, a.inbox.rows[k], 0);
      }
      if a.inbox.Extended? && a.inbox.key in a.working {
        assert EntryOk(w, n, a.inbox.key, a.working[a.inbox.key], a.readAt);
      }
    }
  }

  // What a revocation of a node does, in every run and every continuation in
  // which the node is not admitted again: none of its assignments is active,
  // every renewal by it is stale, no assignment goes to it, and by its own
  // clock it passes the recorder's check no longer than until the isolation
  // deadline it had, at most 150 seconds after the revocation.
  lemma RevokedNodeStops(stable: (string, NodeId) -> real, steps: seq<Step>, n: NodeId, revision: nat,
                         more: seq<Step>, k: Key)
    requires var w := Run(Init(stable), steps);
      n in w.store.nodes && w.store.nodes[n].revision == revision && !w.store.nodes[n].revoked
    requires NotReadmitted(more, n)
    ensures var w := Run(Init(stable), steps);
      var v := Run(Next(w, Revoke(n, revision)), more);
      && (k in v.store.rows && v.store.rows[k].node == n ==> !v.store.rows[k].phase.Active?)
      && (forall g, now :: Renewed(v.store, n, k, g, now).1 == Refused(StaleAssignment))
      && (forall required, task, costs, now :: Assigned(v.store, k, required, task, costs, now).1.Ok? ==>
            Assigned(v.store, k, required, task, costs, now).1.value.node != n)
      && (Passes(v, n, k) ==> v.agents[n].clock < LastEnd(w, n, k) <= w.now + 150)
  {
    hide Run; hide Selected; hide EndsBy;
    var w := Run(Init(stable), steps);
    InitInv(stable);
    RunKeepsInv(Init(stable), steps);
    EntriesEndNow(w, n, k);
    hide Inv; hide LastEnd;
    var u := Next(w, Revoke(n, revision));
    RevocationTakesEffect(w, n, revision, k);
    OutOfServiceRun(u, more, n, k, LastEnd(w, n, k));
    var v := Run(u, more);
    forall required, task, costs, now | Assigned(v.store, k, required, task, costs, now).1.Ok?
      ensures Assigned(v.store, k, required, task, costs, now).1.value.node != n {
      RevokedIsNotAssigned(v.store, n, k, required, task, costs, now);
    }
    if Passes(v, n, k) {
      PassesBefore(v, n, k, LastEnd(w, n, k));
    }
  }

  lemma PassesBefore(w: World, n: NodeId, k: Key, end: int)
    requires Passes(w, n, k) && EntriesEndBy(w, n, k, end)
    ensures w.agents[n].clock < end
  {
  }

  lemma RevocationTakesEffect(w: World, n: NodeId, revision: nat, k: Key)
    requires n in w.store.nodes && w.store.nodes[n].revision == revision && !w.store.nodes[n].revoked
    ensures var u := Next(w, Revoke(n, revision));
      OutOfService(u.store, n) && u.agents == w.agents && u.now == w.now
    ensures var u := Next(w, Revoke(n, revision));
      k in w.store.rows && w.store.rows[k].node == n ==>
        k in u.store.rows && u.store.rows[k].phase == Phase.Revoked && u.store.rows[k].leaseExpiresAt == 0
    ensures var u := Next(w, Revoke(n, revision));
      k in w.store.rows && w.store.rows[k].node != n ==> k in u.store.rows && u.store.rows[k] == w.store.rows[k]
  {
  }

  // ---------- A live lease is exclusive ----------

  predicate KeptUntil(w: World, n: NodeId, k: Key, end: int)
  {
    k in w.store.rows
    && (w.now < end ==> w.store.rows[k].node == n && w.store.rows[k].isolationDeadline >= end)
  }

  predicate GivesUp(step: Step, n: NodeId, k: Key) { step.Report? && step.node == n && step.key == k }

  lemma KeptStep(w: World, step: Step, n: NodeId, k: Key, end: int)
    requires KeptUntil(w, n, k, end) && !GivesUp(step, n, k) && end <= w.now + 150
    ensures KeptUntil(Next(w, step), n, k, end) && end <= Next(w, step).now + 150
  {
    hide Recording; hide Received; hide FiledAll; hide Payload; hide Accepted; hide Selected;
  }

  lemma {:induction false} KeptRun(w: World, more: seq<Step>, n: NodeId, k: Key, end: int)
    requires KeptUntil(w, n, k, end) && end <= w.now + 150
    requires forall i :: 0 <= i < |more| ==> !GivesUp(more[i], n, k)
    ensures KeptUntil(Run(w, more), n, k, end) && end <= Run(w, more).now + 150
  {
    if more != [] {
      hide Next; hide KeptUntil;
      KeptRun(w, more[..|more| - 1], n, k, end);
      KeptStep(Run(w, more[..|more| - 1]), more[|more| - 1], n, k, end);
    }
  }

  // A granted or renewed lease: for 150 seconds nobody else gets the key,
  // whatever happens, unless the holder itself reports a result.
  lemma LeaseIsExclusive(w: World, step: Step, n: NodeId, k: Key, more: seq<Step>)
    requires match step
      case Assign(x, required, task, costs) =>
        x == k && var r := Assigned(w.store, k, required, task, costs, w.now).1; r.Ok? && r.value.node == n
      case StrayRenewal(m, x, generation) => m == n && x == k && Renewed(w.store, n, k, generation, w.now).1.Ok?
      case _ => false
    requires forall i :: 0 <= i < |more| ==> !GivesUp(more[i], n, k)
    ensures var v := Run(Next(w, step), more);
      v.now < w.now + 150 ==> k in v.store.rows && v.store.rows[k].node == n
                              && v.store.rows[k].isolationDeadline >= w.now + 150
  {
    hide Run; hide Selected;
    KeptRun(Next(w, step), more, n, k, w.now + 150);
  }

  // ---------- A holder can record ----------

  // Who holds the key can renew it, and gets 30 seconds of lease and 150 of
  // isolation; nobody else can, and no other key changes.
  lemma HolderRenews(s: Store, n: NodeId, k: Key, generation: nat, now: int)
    requires k in s.rows
    ensures var (t, r) := Renewed(s, n, k, generation, now);
      if s.rows[k].node == n && s.rows[k].generation == generation && s.rows[k].phase.Active?
      then r == Ok(Lease(n, generation, now + 30, now + 150))
           && t == s.(rows := s.rows[k := s.rows[k].(leaseExpiresAt := now + 30, isolationDeadline := now + 150,
                                                     updatedAt := now)])
      else t == s && r == Refused(StaleAssignment)
  {
  }

  // The node's published entry for the key, which passes the recorder's check
  // as long as the node's clock is before the deadline.
  predicate RecordsUntil(w: World, n: NodeId, k: Key, end: int)
  {
    n in w.agents && (Passes(w, n, k) <==> w.agents[n].clock < end)
  }

  // A renewal that is refused ends the round: the agent has nothing left to
  // publish, and what it published before stays.
  lemma RefusedRenewalEndsWork(w: World, n: NodeId, k: Key, x: seq<Step>)
    requires n in w.agents && k in w.agents[n].working && w.agents[n].working[k].phase.Active? && AllForeign(x, n)
    requires !(k in w.store.rows && w.store.rows[k].node == n && w.store.rows[k].phase.Active?
               && w.store.rows[k].generation == w.agents[n].working[k].generation)
    ensures var asked := Next(w, RequestRenewal(n, k));
      var v := Next(Run(asked, x), Receive(n));
      && asked.store == w.store
      && n in v.agents && v.agents[n].working == map[] && v.agents[n].snapshot == w.agents[n].snapshot
  {
    hide Run;
    var asked := Next(w, RequestRenewal(n, k));
    assert n in asked.agents && asked.agents[n] == w.agents[n].(inbox := Rejection);
    ForeignRunKeepsAgent(asked, x, n);
  }

  // The check passes for a published entry that is active, has a generation
  // and is ahead of the node's clock, and for nothing else.
  lemma CheckMeans(w: World, n: NodeId, k: Key)
    ensures Passes(w, n, k) <==>
      && n in w.agents && k in w.agents[n].snapshot
      && w.agents[n].snapshot[k].phase.Active? && w.agents[n].snapshot[k].generation > 0
      && w.agents[n].snapshot[k].isolationDeadline > w.agents[n].clock
  {
  }

  // A node that is granted a key and synchronizes passes the check until 150
  // seconds after the grant, with any steps of others in between.
  lemma GrantedNodeRecords(w: World, n: NodeId, k: Key, required: Option<NodeId>, task: Task, costs: Costs,
                           kept: set<Key>, x: seq<Step>, y: seq<Step>)
    requires n in w.agents && k in kept && AllForeign(x, n) && AllForeign(y, n)
    requires var r := Assigned(w.store, k, required, task, costs, w.now).1; r.Ok? && r.value.node == n
    requires var fetched := Run(Next(Next(w, Assign(k, required, task, costs)), Synchronize(n, kept)), x);
      n in fetched.agents && fetched.agents[n].clock < w.now + 150
    ensures var fetched := Run(Next(Next(w, Assign(k, required, task, costs)), Synchronize(n, kept)), x);
      RecordsUntil(Run(Next(Next(fetched, Receive(n)), Publish(n)), y), n, k, w.now + 150)
  {
    hide Run; hide Next; hide Selected;
    var a := Next(w, Assign(k, required, task, costs));
    GrantGives(w, n, k, required, task, costs);
    PayloadIsOnItsWay(a, n, kept);
    var b := Next(a, Synchronize(n, kept));
    ForeignRunKeepsAgent(b, x, n);
    var c := Run(b, x);
    ReceiptReplaces(c, n, Payload(a.store.rows, n, kept));
    var d := Next(c, Receive(n));
    PublishReplaces(d, n);
    ForeignRunKeepsAgent(Next(d, Publish(n)), y, n);
  }

  lemma GrantGives(w: World, n: NodeId, k: Key, required: Option<NodeId>, task: Task, costs: Costs)
    requires var r := Assigned(w.store, k, required, task, costs, w.now).1; r.Ok? && r.value.node == n
    ensures var a := Next(w, Assign(k, required, task, costs));
      var before := if k in w.store.rows then w.store.rows[k].generation else 0;
      && a.agents == w.agents && a.store.rows - {k} == w.store.rows - {k}
      && k in a.store.rows
      && a.store.rows[k] == Row(n, before + 1, Active, w.now + 30, w.now + 150, w.now, task, costs)
      && Assigned(w.store, k, required, task, costs, w.now).1 == Ok(Lease(n, before + 1, w.now + 30, w.now + 150))
  {
    hide Selected;
  }

  // An assignment fails for want of an eligible node, or because the key is
  // another node's that may still be recording; otherwise the chosen node
  // gets it.
  lemma AssignmentOutcomes(s: Store, k: Key, required: Option<NodeId>, task: Task, costs: Costs, now: int)
    ensures var choice := Selected(QueryOf(s, k, required, task, costs, now));
      var (t, r) := Assigned(s, k, required, task, costs, now);
      match choice
      case None => t == s && r == Refused(if required.Some? then NodeNotEligible else CapacityExhausted)
      case Some(n) =>
        if k in s.rows && s.rows[k].node != n && s.rows[k].isolationDeadline > now
        then t == s && r == Refused(Isolation)
        else r.Ok? && r.value.node == n && t == s.(rows := t.rows)
  {
    hide Selected;
  }

  // A revocation needs the node's present revision, and happens once.
  lemma RevocationOutcomes(s: Store, n: NodeId, revision: nat)
    ensures var (t, r) := RevokedNode(s, n, revision);
      if n !in s.nodes then t == s && r == Refused(NodeNotFound)
      else if s.nodes[n].revision != revision then t == s && r == Refused(RevisionConflict)
      else if s.nodes[n].revoked then t == s && r == Ok(revision)
      else
        && r == Ok(revision + 1) && n in t.nodes
        && t.nodes == s.nodes[n := s.nodes[n].(revoked := true, online := false, revision := revision + 1)]
        && t.jobs == s.jobs && t.catalog == s.catalog && t.rows.Keys == s.rows.Keys
        && forall k :: k in s.rows ==>
             t.rows[k] == if s.rows[k].node != n then s.rows[k]
                          else s.rows[k].(phase := Phase.Revoked, leaseExpiresAt := 0)
  {
  }

  // A job result is taken from the holder of an active row only, and only if
  // it is a result.
  lemma ReportOutcomes(s: Store, n: NodeId, k: Key, generation: nat, phase: Phase, now: int)
    ensures var (t, r) := Reported(s, n, k, generation, phase, now);
      if phase.Active? || phase.Revoked? then t == s && r == Refused(InvalidResult)
      else if k in s.rows && s.rows[k].node == n && s.rows[k].generation == generation && s.rows[k].phase.Active?
      then r == Ok(generation)
           && t == s.(rows := s.rows[k := s.rows[k].(phase := phase, leaseExpiresAt := 0, isolationDeadline := 0,
                                                     updatedAt := now)])
      else t == s && r == Refused(StaleAssignment)
  {
  }

  // A node that renews a key it holds passes the check until 150 seconds
  // after the controller took the renewal, however late the reply is.
  lemma RenewedNodeRecords(w: World, n: NodeId, k: Key, x: seq<Step>, y: seq<Step>)
    requires n in w.agents && k in w.agents[n].working && k in w.store.rows && AllForeign(x, n) && AllForeign(y, n)
    requires var e := w.agents[n].working[k]; var row := w.store.rows[k];
      e.phase.Active? && row.phase.Active? && row.node == n && row.generation == e.generation > 0
    requires w.agents[n].readAt < w.now + 150
    ensures RecordsUntil(Run(Next(Next(Run(Next(w, RequestRenewal(n, k)), x), Receive(n)), Publish(n)), y), n, k,
                         w.now + 150)
  {
    hide Run; hide Next;
    var generation := w.agents[n].working[k].generation;
    HolderRenews(w.store, n, k, generation, w.now);
    var lease := Lease(n, generation, w.now + 30, w.now + 150);
    RequestIsOnItsWay(w, n, k, lease);
    var b := Next(w, RequestRenewal(n, k));
    ForeignRunKeepsAgent(b, x, n);
    var c := Run(b, x);
    ReceiptExtends(c, n, k, lease);
    var d := Next(c, Receive(n));
    PublishReplaces(d, n);
    ForeignRunKeepsAgent(Next(d, Publish(n)), y, n);
  }

  // ---------- The catalog ----------

  // The last report of a batch about an id decides its row: it is in conflict
  // exactly if the node said so or does not hold the key with that generation.
  lemma {:induction false} FiledRowsAreMarked(catalog: Catalog, rows: Table, n: NodeId, batch: seq<Segment>, i: nat)
    requires i < |batch|
    requires forall j :: i < j < |batch| ==> batch[j].id != batch[i].id || batch[j].volume != batch[i].volume
    ensures var g := batch[i]; var id := CatalogId(g.id, n, g.volume);
      var after := FiledAll(catalog, rows, n, batch);
      && id in after && after[id].key == g.key && after[id].generation == g.generation
      && (after[id].conflict <==> g.reportedConflict || !(g.key in rows && rows[g.key].node == n
                                                         && rows[g.key].generation == g.generation))
  {
    var before := batch[..|batch| - 1];
    if i < |before| {
      FiledRowsAreMarked(catalog, rows, n, before, i);
    }
  }

  // A node files its segments whenever it sends them.
  lemma FilingMeans(w: World, n: NodeId, batch: seq<Segment>)
    ensures Next(w, FileSegments(n, batch))
         == w.(store := w.store.(catalog := FiledAll(w.store.catalog, w.store.rows, n, batch)))
  {
  }

  // Other rows of the catalog stay.
  lemma {:induction false} OtherRowsStay(catalog: Catalog, rows: Table, n: NodeId, batch: seq<Segment>, id: CatalogId)
    requires id.node != n || forall j :: 0 <= j < |batch| ==> batch[j].id != id.segment || batch[j].volume != id.volume
    ensures var after := FiledAll(catalog, rows, n, batch);
      (id in after <==> id in catalog) && (id in catalog ==> after[id] == catalog[id])
  {
    if batch != [] {
      OtherRowsStay(catalog, rows, n, batch[..|batch| - 1], id);
    }
  }

  lemma {:induction false} ConflictsAreCounted(rows: Table, n: NodeId, batch: seq<Segment>)
    ensures Conflicts(rows, n, batch)
         == |set i | 0 <= i < |batch| && !(batch[i].key in rows && rows[batch[i].key].node == n
                                           && rows[batch[i].key].generation == batch[i].generation)|
  {
    var foreign := set i | 0 <= i < |batch| && !Owned(rows, n, batch[i]);
    if batch != [] {
      var last, before := |batch| - 1, batch[..|batch| - 1];
      ConflictsAreCounted(rows, n, before);
      var earlier := set i | 0 <= i < |before| && !Owned(rows, n, before[i]);
      assert foreign == earlier + if Owned(rows, n, batch[last]) then {} else {last};
      assert (set i | 0 <= i < |before| && !(before[i].key in rows && rows[before[i].key].node == n
                                             && rows[before[i].key].generation == before[i].generation)) == earlier;
    }
    assert (set i | 0 <= i < |batch| && !(batch[i].key in rows && rows[batch[i].key].node == n
                                          && rows[batch[i].key].generation == batch[i].generation)) == foreign;
  }
}
