// The recorder agent's synchronization loop (cluster/node_agent.py, run).

// What one round of the loop does, given the controller's replies.
module AgentRounds {
  import opened ClusterTypes
  import opened Assignments
  import opened Fencing
  import opened Options

  const RENEW_AFTER_SECONDS := 10
  const CUT_OFF_SECONDS := 120

  // What one round meets: how the requests end and what its clocks show. A
  // missing renewal reply stands for a rejected or a lost one; `listed` is
  // the order of the payload's rows. The monotonic clock is read before and
  // after the renewal at each index, and twice when the round has failed.
  datatype Replies = Replies(certificate: bool, heartbeat: bool, payload: Option<Table>, listed: seq<Key>,
                             renewals: map<Key, Lease>, catalog: bool, detector: bool, now: int,
                             checkedAt: nat -> int, renewedAt: nat -> int, failedAt: int, judgedAt: int)

  // The round's working copy of the payload, the next renewal times, and
  // whether a renewal failed.
  datatype Progress = Progress(working: Table, nextRenew: map<Key, int>, failed: bool)

  // The payload has one row a key.
  predicate WellListed(o: Replies)
  {
    o.payload.Some? ==>
      (forall k :: k in o.listed ==> k in o.payload.value)
      && (forall i, j :: 0 <= i < j < |o.listed| ==> o.listed[i] != o.listed[j])
  }

  predicate Due(p: Progress, k: Key, o: Replies, i: nat)
    requires k in p.working
  {
    p.working[k].phase.Active? && (k in p.nextRenew ==> p.nextRenew[k] <= o.checkedAt(i))
  }

  // The renewal at index `i`, if it is due.
  function Visit(p: Progress, k: Key, o: Replies, i: nat): Progress
  {
    if p.failed || k !in p.working || !Due(p, k, o, i) then p
    else if k !in o.renewals then p.(failed := true)
    else Progress(p.working[k := WithLease(p.working[k], o.renewals[k])],
                  p.nextRenew[k := o.renewedAt(i) + RENEW_AFTER_SECONDS], false)
  }

  function VisitAll(p: Progress, keys: seq<Key>, o: Replies): Progress
  {
    if keys == [] then p else Visit(VisitAll(p, keys[..|keys| - 1], o), keys[|keys| - 1], o, |keys| - 1)
  }

  function Listed(t: Table, keys: seq<Key>): Table
  {
    map k | k in t && k in keys :: t[k]
  }

  datatype AgentState = AgentState(snapshot: Table, nextRenew: map<Key, int>, failingSince: Option<int>)

  predicate Answered(o: Replies) { o.certificate && o.heartbeat && o.payload.Some? }

  // Where the renewals of a round start.
  function Begun(s: AgentState, o: Replies): Progress
    requires o.payload.Some?
  {
    Progress(Listed(o.payload.value, o.listed), s.nextRenew, false)
  }

  function Visited(s: AgentState, o: Replies): Progress
  {
    if !Answered(o) then Progress(map[], s.nextRenew, true) else VisitAll(Begun(s, o), o.listed, o)
  }

  predicate Succeeded(s: AgentState, o: Replies) { !Visited(s, o).failed && o.catalog && o.detector }

  function FailingSince(s: AgentState, o: Replies): Option<int>
  {
    if Succeeded(s, o) then None else if s.failingSince.None? then Some(o.failedAt) else s.failingSince
  }

  predicate CutOff(s: AgentState, o: Replies)
  {
    var f := FailingSince(s, o);
    f.Some? && o.judgedAt - f.value >= CUT_OFF_SECONDS
  }

  function Round(s: AgentState, o: Replies): AgentState
  {
    var p := Visited(s, o);
    AgentState(if CutOff(s, o) then map[] else if p.failed then s.snapshot else Accepted(p.working, o.now),
               p.nextRenew, FailingSince(s, o))
  }

  function Rounds(s: AgentState, os: seq<Replies>): AgentState
  {
    if os == [] then s else Round(Rounds(s, os[..|os| - 1]), os[|os| - 1])
  }

  // Every entry a round newly publishes was active and unexpired on the
  // node's clock when the reply was read.
  lemma PublishedEntriesAreLive(s: AgentState, o: Replies, k: Key)
    requires k in Round(s, o).snapshot
    ensures var e := Round(s, o).snapshot[k];
      (k in s.snapshot && e == s.snapshot[k]) || (e.phase.Active? && e.isolationDeadline > o.now && k in o.listed)
  {
    if !Visited(s, o).failed && !CutOff(s, o) {
      VisitKeepsKeys(Begun(s, o), o.listed, o);
    }
  }

  lemma {:induction false} VisitKeepsKeys(p: Progress, keys: seq<Key>, o: Replies)
    ensures VisitAll(p, keys, o).working.Keys == p.working.Keys
  {
    if keys != [] {
      VisitKeepsKeys(p, keys[..|keys| - 1], o);
    }
  }

  // Losing the controller ends recording: after a stretch of rounds none of
  // which succeeded, from the first failure to the last judgement at least
  // the cut-off, the published snapshot is empty.
  lemma LostControllerClearsSnapshot(s: AgentState, os: seq<Replies>)
    requires |os| > 0
    requires forall i :: 0 <= i < |os| ==> !Succeeded(Rounds(s, os[..i]), os[i])
    requires s.failingSince.Some? ==> s.failingSince.value <= os[0].failedAt
    requires os[|os| - 1].judgedAt - os[0].failedAt >= CUT_OFF_SECONDS
    ensures Rounds(s, os).snapshot == map[]
  {
    hide Visited; hide Accepted;
    FailingSinceFirst(s, os);
    var before := Rounds(s, os[..|os| - 1]);
    assert Rounds(s, os) == Round(before, os[|os| - 1]);
    assert CutOff(before, os[|os| - 1]);
  }

  lemma {:induction false} FailingSinceFirst(s: AgentState, os: seq<Replies>)
    requires |os| > 0
    requires forall i :: 0 <= i < |os| ==> !Succeeded(Rounds(s, os[..i]), os[i])
    requires s.failingSince.Some? ==> s.failingSince.value <= os[0].failedAt
    ensures Rounds(s, os).failingSince.Some? && Rounds(s, os).failingSince.value <= os[0].failedAt
  {
    hide Visited; hide Accepted;
    var before, last := os[..|os| - 1], os[|os| - 1];
    if before != [] {
      forall i | 0 <= i < |before| ensures !Succeeded(Rounds(s, before[..i]), before[i]) {
        assert before[..i] == os[..i];
      }
      FailingSinceFirst(s, before);
    }
    assert !Succeeded(Rounds(s, before), last);
  }

  lemma {:induction false} FailureSticks(p: Progress, keys: seq<Key>, i: nat, o: Replies)
    requires i <= |keys| && VisitAll(p, keys[..i], o).failed
    ensures VisitAll(p, keys, o) == VisitAll(p, keys[..i], o)
    decreases |keys|
  {
    if i == |keys| {
      assert keys[..i] == keys;
    } else {
      assert keys[..|keys| - 1][..i] == keys[..i];
      FailureSticks(p, keys[..|keys| - 1], i, o);
    }
  }
}

// What a round does to the published snapshot, in terms of what it was told.
module AgentOutcomes {
  import opened ClusterTypes
  import opened Assignments
  import opened Fencing
  import opened AgentRounds
  import opened Options

  // The row at an index is active and was not renewed in the last ten seconds.
  predicate NeedsRenewal(s: AgentState, o: Replies, i: nat)
    requires WellListed(o) && o.payload.Some? && i < |o.listed|
  {
    var k := o.listed[i];
    o.payload.value[k].phase.Active? && (k in s.nextRenew ==> s.nextRenew[k] <= o.checkedAt(i))
  }

  // A renewal that was needed got no reply, or a refusal.
  predicate LacksRenewal(s: AgentState, o: Replies, n: nat)
    requires WellListed(o) && o.payload.Some? && n <= |o.listed|
  {
    exists i :: 0 <= i < n && NeedsRenewal(s, o, i) && o.listed[i] !in o.renewals
  }

  // The entry the round works with: the payload's, with the renewed lease.
  function EntryAt(s: AgentState, o: Replies, i: nat): Row
    requires WellListed(o) && o.payload.Some? && i < |o.listed|
  {
    var k := o.listed[i];
    if NeedsRenewal(s, o, i) && k in o.renewals
    then o.payload.value[k].(leaseExpiresAt := o.renewals[k].expiresAt,
                             isolationDeadline := o.renewals[k].isolationDeadline)
    else o.payload.value[k]
  }

  function Lookup(m: map<Key, int>, k: Key): Option<int> { if k in m then Some(m[k]) else None }

  ghost predicate VisitedTo(s: AgentState, o: Replies, n: nat, p: Progress)
    requires WellListed(o) && o.payload.Some? && n <= |o.listed|
  {
    && (p.failed <==> LacksRenewal(s, o, n))
    && (!p.failed ==>
          && (forall k :: k in p.working <==> k in o.listed)
          && (forall i :: 0 <= i < |o.listed| ==>
                p.working[o.listed[i]] == if i < n then EntryAt(s, o, i) else o.payload.value[o.listed[i]])
          && (forall i :: 0 <= i < |o.listed| ==>
                Lookup(p.nextRenew, o.listed[i])
                == if i < n && NeedsRenewal(s, o, i) then Some(o.renewedAt(i) + 10)
                   else Lookup(s.nextRenew, o.listed[i])))
  }

  lemma {:induction false} VisitsTo(s: AgentState, o: Replies, n: nat)
    requires WellListed(o) && Answered(o) && n <= |o.listed|
    ensures VisitedTo(s, o, n, VisitAll(Begun(s, o), o.listed[..n], o))
  {
    if n > 0 {
      VisitsTo(s, o, n - 1);
      assert o.listed[..n][..n - 1] == o.listed[..n - 1];
      VisitedOneMore(s, o, n - 1, VisitAll(Begun(s, o), o.listed[..n - 1], o));
    }
  }

  lemma VisitedOneMore(s: AgentState, o: Replies, n: nat, p: Progress)
    requires WellListed(o) && o.payload.Some? && n < |o.listed| && VisitedTo(s, o, n, p)
    ensures VisitedTo(s, o, n + 1, Visit(p, o.listed[n], o, n))
  {
    var k, q := o.listed[n], Visit(p, o.listed[n], o, n);
    LacksOneMore(s, o, n);
    hide LacksRenewal;
    if !p.failed {
      assert Lookup(p.nextRenew, k) == Lookup(s.nextRenew, k) && p.working[k] == o.payload.value[k];
      assert Due(p, k, o, n) <==> NeedsRenewal(s, o, n);
      forall i | 0 <= i < |o.listed| && i != n ensures o.listed[i] != k {
      }
    }
  }

  lemma LacksOneMore(s: AgentState, o: Replies, n: nat)
    requires WellListed(o) && o.payload.Some? && n < |o.listed|
    ensures LacksRenewal(s, o, n + 1) <==>
            LacksRenewal(s, o, n) || (NeedsRenewal(s, o, n) && o.listed[n] !in o.renewals)
  {
  }

  // Whether the round gets as far as publishing.
  predicate Publishes(s: AgentState, o: Replies)
    requires WellListed(o)
  {
    o.certificate && o.heartbeat && o.payload.Some? && !LacksRenewal(s, o, |o.listed|)
  }

  lemma PublishesIff(s: AgentState, o: Replies)
    requires WellListed(o)
    ensures Publishes(s, o) <==> !Visited(s, o).failed
    ensures Succeeded(s, o) <==> Publishes(s, o) && o.catalog && o.detector
    ensures Publishes(s, o) ==> VisitedTo(s, o, |o.listed|, Visited(s, o))
  {
    if Answered(o) {
      VisitsTo(s, o, |o.listed|);
      assert o.listed[..|o.listed|] == o.listed;
    }
  }

  // The snapshot is exactly the live entries of the round's payload.
  ghost predicate ShowsPayload(snapshot: Table, s: AgentState, o: Replies)
    requires WellListed(o) && o.payload.Some?
  {
    && (forall k :: k in snapshot ==> k in o.listed)
    && forall i :: 0 <= i < |o.listed| ==>
         var k, e := o.listed[i], EntryAt(s, o, i);
         (k in snapshot <==> e.phase.Active? && e.isolationDeadline > o.now) && (k in snapshot ==> snapshot[k] == e)
  }

  // One round. It counts as failed unless it publishes and the catalog and
  // detector work goes well. Only a failed round that is judged 120 seconds or
  // more after the first failure of its stretch empties the snapshot; any
  // other publishes exactly the live entries, or leaves the snapshot alone if
  // it does not get that far. A renewed entry is not due again for ten
  // seconds.
  lemma RoundMeans(s: AgentState, o: Replies)
    requires WellListed(o)
    ensures var t := Round(s, o);
      var failed := !(Publishes(s, o) && o.catalog && o.detector);
      var first := if s.failingSince.Some? then s.failingSince.value else o.failedAt;
      && t.failingSince == (if failed then Some(first) else None)
      && (if failed && o.judgedAt - first >= 120 then t.snapshot == map[]
          else if Publishes(s, o) then ShowsPayload(t.snapshot, s, o)
          else t.snapshot == s.snapshot)
      && (Publishes(s, o) ==>
            forall i :: 0 <= i < |o.listed| ==>
              Lookup(t.nextRenew, o.listed[i]) == if NeedsRenewal(s, o, i) then Some(o.renewedAt(i) + 10)
                                                  else Lookup(s.nextRenew, o.listed[i]))
  {
    PublishesIff(s, o);
    hide Visited; hide LacksRenewal; hide EntryAt; hide NeedsRenewal;
  }

  ghost predicate AllListed(os: seq<Replies>) { forall i :: 0 <= i < |os| ==> WellListed(os[i]) }

  // The snapshot is that of the last of these rounds that published, or the
  // one from before.
  ghost predicate ShowsLast(s: AgentState, os: seq<Replies>, snapshot: Table)
    requires AllListed(os)
  {
    if os == [] then snapshot == s.snapshot
    else
      var before, last := os[..|os| - 1], os[|os| - 1];
      assert AllListed(before);
      if Publishes(Rounds(s, before), last) then ShowsPayload(snapshot, Rounds(s, before), last)
      else ShowsLast(s, before, snapshot)
  }

  ghost predicate NoneSucceeds(s: AgentState, os: seq<Replies>)
  {
    forall i :: 0 <= i < |os| ==> !Succeeded(Rounds(s, os[..i]), os[i])
  }

  lemma NoneBefore(s: AgentState, os: seq<Replies>)
    requires os != [] && NoneSucceeds(s, os)
    ensures NoneSucceeds(s, os[..|os| - 1]) && !Succeeded(Rounds(s, os[..|os| - 1]), os[|os| - 1])
  {
    var before := os[..|os| - 1];
    forall i | 0 <= i < |before| ensures !Succeeded(Rounds(s, before[..i]), before[i]) {
      assert before[..i] == os[..i];
    }
  }

  // A short outage stops nothing: with no failure before, any number of
  // failed rounds judged less than 120 seconds after the first failure leave
  // the snapshot of the last round that published.
  lemma {:induction false} ShortOutageKeepsSnapshot(s: AgentState, os: seq<Replies>)
    requires s.failingSince.None? && AllListed(os) && NoneSucceeds(s, os)
    requires forall i :: 0 <= i < |os| ==> os[i].judgedAt - os[0].failedAt < 120
    ensures ShowsLast(s, os, Rounds(s, os).snapshot)
    ensures os != [] ==> Rounds(s, os).failingSince == Some(os[0].failedAt)
  {
    hide Round; hide Publishes; hide ShowsPayload; hide Succeeded; hide NoneSucceeds; hide WellListed;
    if os != [] {
      NoneBefore(s, os);
      ShortOutageKeepsSnapshot(s, os[..|os| - 1]);
      assert WellListed(os[|os| - 1]);
      RoundMeans(Rounds(s, os[..|os| - 1]), os[|os| - 1]);
      PublishesIff(Rounds(s, os[..|os| - 1]), os[|os| - 1]);
    }
  }
}

// A round of the loop is a run of the protocol.
module AgentProtocol {
  import opened ClusterTypes
  import opened Placement
  import opened Assignments
  import opened Fencing
  import opened AgentRounds
  import opened Options

  // A step that is not one of node n's agent.
  predicate Foreign(step: Step, n: NodeId)
  {
    match step
    case Synchronize(m, _) => m != n
    case RequestRenewal(m, _) => m != n
    case Receive(m) => m != n
    case Publish(m) => m != n
    case Abandon(m, _) => m != n
    case _ => true
  }

  predicate AllForeign(steps: seq<Step>, n: NodeId)
  {
    forall i :: 0 <= i < |steps| ==> Foreign(steps[i], n)
  }

  lemma ForeignKeepsAgent(w: World, step: Step, n: NodeId)
    requires n in w.agents && Foreign(step, n)
    ensures n in Next(w, step).agents && SameButClock(w.agents[n], Next(w, step).agents[n])
  {
    hide Recording; hide Received; hide Grant; hide FiledAll; hide Payload; hide Accepted; hide Renewed; hide Reported;
    hide RevokedNode; hide Assigned;
  }

  lemma {:induction false} ForeignRunKeepsAgent(w: World, steps: seq<Step>, n: NodeId)
    requires n in w.agents && AllForeign(steps, n)
    ensures n in Run(w, steps).agents && SameButClock(w.agents[n], Run(w, steps).agents[n])
  {
    hide Next;
    if steps != [] {
      ForeignRunKeepsAgent(w, steps[..|steps| - 1], n);
      ForeignKeepsAgent(Run(w, steps[..|steps| - 1]), steps[|steps| - 1], n);
    }
  }

  // What everybody else does during a round: while the payload and each
  // renewal's reply are on the way, after each of them, and after the
  // publication.
  datatype Others = Others(fetching: seq<Step>, fetched: seq<Step>, asking: nat -> seq<Step>, asked: nat -> seq<Step>,
                           published: seq<Step>)

  ghost predicate OnlyOthers(x: Others, n: NodeId)
  {
    && AllForeign(x.fetching, n) && AllForeign(x.fetched, n) && AllForeign(x.published, n)
    && forall i :: AllForeign(x.asking(i), n) && AllForeign(x.asked(i), n)
  }

  predicate Asks(p: Progress, k: Key, o: Replies, i: nat)
  {
    !p.failed && k in p.working && Due(p, k, o, i) && k in o.renewals
  }

  // The steps of the renewal at index i. A renewal without a reply is no step
  // of the agent; that the controller got it all the same is one of `asked`.
  function OneVisit(p: Progress, k: Key, o: Replies, i: nat, n: NodeId, x: Others): seq<Step>
  {
    (if Asks(p, k, o, i) then [RequestRenewal(n, k)] + x.asking(i) + [Receive(n)] else []) + x.asked(i)
  }

  function VisitSteps(p: Progress, keys: seq<Key>, o: Replies, n: NodeId, x: Others): seq<Step>
  {
    if keys == [] then []
    else
      var before := keys[..|keys| - 1];
      VisitSteps(p, before, o, n, x) + OneVisit(VisitAll(p, before, o), keys[|keys| - 1], o, |keys| - 1, n, x)
  }

  // A reply that arrives is the one the controller gave.
  ghost predicate TrueReply(w: World, n: NodeId, p: Progress, k: Key, o: Replies, i: nat)
  {
    Asks(p, k, o, i) ==> Renewed(w.store, n, k, p.working[k].generation, w.now).1 == Ok(o.renewals[k])
  }

  ghost predicate TrueReplies(w: World, n: NodeId, p: Progress, keys: seq<Key>, o: Replies, x: Others)
  {
    forall i :: 0 <= i < |keys| ==>
      TrueReply(Run(w, VisitSteps(p, keys[..i], o, n, x)), n, VisitAll(p, keys[..i], o), keys[i], o, i)
  }

  // The agent is in the middle of a round.
  predicate AtWork(w: World, n: NodeId, working: Table, readAt: int, snapshot: Table)
  {
    n in w.agents && w.agents[n].working == working && w.agents[n].readAt == readAt && w.agents[n].snapshot == snapshot
  }

  lemma ForeignKeepsWork(w: World, steps: seq<Step>, n: NodeId, working: Table, readAt: int, snapshot: Table)
    requires AtWork(w, n, working, readAt, snapshot) && AllForeign(steps, n)
    ensures AtWork(Run(w, steps), n, working, readAt, snapshot)
    ensures Run(w, steps).agents[n].inbox == w.agents[n].inbox
  {
    hide Run;
    ForeignRunKeepsAgent(w, steps, n);
  }

  lemma RunOne(w: World, step: Step)
    ensures Run(w, [step]) == Next(w, step)
  {
    assert [step][..0] == [];
  }

  // One renewal: the protocol's steps leave the working copy of the visit.
  lemma VisitFollows(w: World, n: NodeId, p: Progress, k: Key, o: Replies, i: nat, x: Others, readAt: int,
                     snapshot: Table)
    requires AtWork(w, n, p.working, readAt, snapshot) && OnlyOthers(x, n) && TrueReply(w, n, p, k, o, i)
    ensures AtWork(Run(w, OneVisit(p, k, o, i, n, x)), n, Visit(p, k, o, i).working, readAt, snapshot)
  {
    hide Run; hide Next;
    if Asks(p, k, o, i) {
      var lease := o.renewals[k];
      RunOne(w, RequestRenewal(n, k));
      var a := Run(w, [RequestRenewal(n, k)]);
      RequestIsOnItsWay(w, n, k, lease);
      ForeignKeepsWork(a, x.asking(i), n, p.working, readAt, snapshot);
      var b := Run(a, x.asking(i));
      RunOne(b, Receive(n));
      var c := Run(b, [Receive(n)]);
      ReceiptExtends(b, n, k, lease);
      ForeignKeepsWork(c, x.asked(i), n, Visit(p, k, o, i).working, readAt, snapshot);
      RunConcat(w, [RequestRenewal(n, k)], x.asking(i));
      RunConcat(w, [RequestRenewal(n, k)] + x.asking(i), [Receive(n)]);
      RunConcat(w, [RequestRenewal(n, k)] + x.asking(i) + [Receive(n)], x.asked(i));
    } else {
      assert OneVisit(p, k, o, i, n, x) == x.asked(i);
      ForeignKeepsWork(w, x.asked(i), n, p.working, readAt, snapshot);
    }
  }

  lemma RequestIsOnItsWay(w: World, n: NodeId, k: Key, lease: Lease)
    requires n in w.agents && k in w.agents[n].working && w.agents[n].working[k].phase.Active?
    requires Renewed(w.store, n, k, w.agents[n].working[k].generation, w.now).1 == Ok(lease)
    ensures n in Next(w, RequestRenewal(n, k)).agents
    ensures Next(w, RequestRenewal(n, k)).agents[n] == w.agents[n].(inbox := Extended(k, lease))
  {
  }

  lemma ReceiptExtends(w: World, n: NodeId, k: Key, lease: Lease)
    requires n in w.agents && k in w.agents[n].working && w.agents[n].inbox == Extended(k, lease)
    ensures n in Next(w, Receive(n)).agents
    ensures var a := w.agents[n];
      Next(w, Receive(n)).agents[n]
      == a.(working := a.working[k := WithLease(a.working[k], lease)], inbox := Nothing)
  {
  }

  lemma {:induction false} VisitsFollow(w: World, n: NodeId, p: Progress, keys: seq<Key>, o: Replies, x: Others,
                                        readAt: int, snapshot: Table)
    requires AtWork(w, n, p.working, readAt, snapshot) && OnlyOthers(x, n) && TrueReplies(w, n, p, keys, o, x)
    ensures AtWork(Run(w, VisitSteps(p, keys, o, n, x)), n, VisitAll(p, keys, o).working, readAt, snapshot)
  {
    hide Next; hide Visit; hide OneVisit; hide TrueReply; hide OnlyOthers;
    if keys != [] {
      var before, k, i := keys[..|keys| - 1], keys[|keys| - 1], |keys| - 1;
      forall j | 0 <= j < |before|
        ensures TrueReply(Run(w, VisitSteps(p, before[..j], o, n, x)), n, VisitAll(p, before[..j], o), before[j], o, j)
      {
        assert before[..j] == keys[..j];
      }
      VisitsFollow(w, n, p, before, o, x, readAt, snapshot);
      var u := Run(w, VisitSteps(p, before, o, n, x));
      VisitFollows(u, n, VisitAll(p, before, o), k, o, i, x, readAt, snapshot);
      RunConcat(w, VisitSteps(p, before, o, n, x), OneVisit(VisitAll(p, before, o), k, o, i, n, x));
    }
  }

  // ---------- A whole round ----------

  function FetchSteps(o: Replies, n: NodeId, x: Others): seq<Step>
  {
    [Synchronize(n, set k | k in o.listed)] + x.fetching + [Receive(n)] + x.fetched
  }

  // How a round ends, after the renewals.
  function EndSteps(s: AgentState, o: Replies, n: NodeId, x: Others): seq<Step>
  {
    if Visited(s, o).failed then [Abandon(n, CutOff(s, o))]
    else [Publish(n)] + x.published + if Succeeded(s, o) then [] else [Abandon(n, CutOff(s, o))]
  }

  function RoundSteps(s: AgentState, o: Replies, n: NodeId, x: Others): seq<Step>
  {
    if !Answered(o) then [Abandon(n, CutOff(s, o))]
    else FetchSteps(o, n, x) + VisitSteps(Begun(s, o), o.listed, o, n, x) + EndSteps(s, o, n, x)
  }

  // What the round was told is what the controller had: the payload when it
  // was asked, the node's clock when the payload arrived, each renewal.
  ghost predicate ToldTruly(w: World, s: AgentState, o: Replies, n: NodeId, x: Others)
  {
    Answered(o) ==>
      && Listed(o.payload.value, o.listed) == Payload(w.store.rows, n, set k | k in o.listed)
      && (var arrival := Run(w, [Synchronize(n, set k | k in o.listed)] + x.fetching);
          n in arrival.agents && arrival.agents[n].clock == o.now)
      && TrueReplies(Run(w, FetchSteps(o, n, x)), n, Begun(s, o), o.listed, o, x)
  }

  lemma FetchFollows(w: World, s: AgentState, o: Replies, n: NodeId, x: Others)
    requires n in w.agents && Answered(o) && OnlyOthers(x, n) && ToldTruly(w, s, o, n, x)
    ensures AtWork(Run(w, FetchSteps(o, n, x)), n, Begun(s, o).working, o.now, w.agents[n].snapshot)
  {
    hide Run; hide Next; hide TrueReplies;
    var kept := set k | k in o.listed;
    var ask := Synchronize(n, kept);
    RunOne(w, ask);
    var a := Run(w, [ask]);
    PayloadIsOnItsWay(w, n, kept);
    ForeignRunKeepsAgent(a, x.fetching, n);
    var b := Run(a, x.fetching);
    RunConcat(w, [ask], x.fetching);
    RunOne(b, Receive(n));
    var c := Run(b, [Receive(n)]);
    ReceiptReplaces(b, n, Payload(w.store.rows, n, kept));
    RunConcat(w, [ask] + x.fetching, [Receive(n)]);
    RunConcat(w, [ask] + x.fetching + [Receive(n)], x.fetched);
    ForeignKeepsWork(c, x.fetched, n, Begun(s, o).working, o.now, w.agents[n].snapshot);
  }

  lemma PayloadIsOnItsWay(w: World, n: NodeId, kept: set<Key>)
    requires n in w.agents
    ensures n in Next(w, Synchronize(n, kept)).agents
    ensures Next(w, Synchronize(n, kept)).agents[n]
         == w.agents[n].(inbox := Inbox.Assignments(Payload(w.store.rows, n, kept)))
  {
  }

  lemma ReceiptReplaces(w: World, n: NodeId, rows: Table)
    requires n in w.agents && w.agents[n].inbox == Inbox.Assignments(rows)
    ensures n in Next(w, Receive(n)).agents
    ensures Next(w, Receive(n)).agents[n]
         == w.agents[n].(working := rows, readAt := w.agents[n].clock, inbox := Nothing)
  {
  }

  lemma AbandonLeaves(w: World, n: NodeId, cutOff: bool)
    requires n in w.agents
    ensures n in Next(w, Abandon(n, cutOff)).agents
    ensures Next(w, Abandon(n, cutOff)).agents[n].snapshot == if cutOff then map[] else w.agents[n].snapshot
  {
  }

  lemma PublishReplaces(w: World, n: NodeId)
    requires n in w.agents
    ensures n in Next(w, Publish(n)).agents
    ensures Next(w, Publish(n)).agents[n].snapshot == Accepted(w.agents[n].working, w.agents[n].readAt)
  {
  }

  lemma EndFollows(w: World, s: AgentState, o: Replies, n: NodeId, x: Others)
    requires AtWork(w, n, Visited(s, o).working, o.now, s.snapshot) && OnlyOthers(x, n)
    ensures var v := Run(w, EndSteps(s, o, n, x)); n in v.agents && v.agents[n].snapshot == Round(s, o).snapshot
  {
    hide Run; hide Next; hide Visited; hide Accepted; hide CutOff; hide Succeeded; hide FailingSince;
    CutOffIsFailure(s, o);
    if Visited(s, o).failed {
      RunOne(w, Abandon(n, CutOff(s, o)));
      AbandonLeaves(w, n, CutOff(s, o));
    } else {
      RunOne(w, Publish(n));
      PublishReplaces(w, n);
      var a := Run(w, [Publish(n)]);
      ForeignRunKeepsAgent(a, x.published, n);
      var b := Run(a, x.published);
      RunConcat(w, [Publish(n)], x.published);
      if Succeeded(s, o) {
        assert [Publish(n)] + x.published + [] == [Publish(n)] + x.published;
      } else {
        RunOne(b, Abandon(n, CutOff(s, o)));
        AbandonLeaves(b, n, CutOff(s, o));
        RunConcat(w, [Publish(n)] + x.published, [Abandon(n, CutOff(s, o))]);
      }
    }
  }

  lemma CutOffIsFailure(s: AgentState, o: Replies)
    ensures CutOff(s, o) ==> !Succeeded(s, o)
  {
  }

  // A round of the loop, with everybody else's steps at every point where the
  // agent waits, is a run of the protocol that leaves the snapshot the round
  // leaves. So everything proved of all runs holds of the loop.
  lemma RoundIsRun(stable: (string, NodeId) -> real, steps: seq<Step>, s: AgentState, o: Replies, n: NodeId, x: Others)
    requires var w := Run(Init(stable), steps);
      && n in w.agents && w.agents[n].snapshot == s.snapshot
      && OnlyOthers(x, n) && ToldTruly(w, s, o, n, x)
    ensures var v := Run(Init(stable), steps + RoundSteps(s, o, n, x));
      n in v.agents && v.agents[n].snapshot == Round(s, o).snapshot
  {
    hide Run; hide Next; hide Begun; hide Round; hide EndSteps; hide FetchSteps; hide VisitSteps;
    var w := Run(Init(stable), steps);
    RunConcat(Init(stable), steps, RoundSteps(s, o, n, x));
    if Answered(o) {
      FetchFollows(w, s, o, n, x);
      var a := Run(w, FetchSteps(o, n, x));
      VisitsFollow(a, n, Begun(s, o), o.listed, o, x, o.now, s.snapshot);
      var visits := VisitSteps(Begun(s, o), o.listed, o, n, x);
      RunConcat(w, FetchSteps(o, n, x), visits);
      EndFollows(Run(a, visits), s, o, n, x);
      RunConcat(w, FetchSteps(o, n, x) + visits, EndSteps(s, o, n, x));
    } else {
      RunOne(w, Abandon(n, CutOff(s, o)));
      AbandonLeaves(w, n, CutOff(s, o));
      UnansweredRound(s, o);
    }
  }

  lemma UnansweredRound(s: AgentState, o: Replies)
    requires !Answered(o)
    ensures Round(s, o).snapshot == if CutOff(s, o) then map[] else s.snapshot
  {
  }
}

module AgentLoop {
  import opened ClusterTypes
  import opened Assignments
  import opened Fencing
  import opened AgentRounds
  import opened Options

  class NodeAgent {
    var published: Table
    var nextRenew: map<Key, int>
    var failureStarted: Option<int>

    constructor ()
      ensures State() == AgentState(map[], map[], None)
    {
      published, nextRenew, failureStarted := map[], map[], None;
    }

    function State(): AgentState
      reads this
    {
      AgentState(published, nextRenew, failureStarted)
    }

    // The try block up to the publication: false when a request failed. Each
    // row is renewed if that is due, and then kept if it is live.
    method Synchronize(o: Replies) returns (ok: bool, accepted: Table)
      requires WellListed(o)
      modifies this`nextRenew
      ensures var p := Visited(old(State()), o);
        ok == !p.failed && nextRenew == p.nextRenew && (ok ==> accepted == Accepted(p.working, o.now))
    {
      hide VisitAll; hide Accepted; hide Listed; hide Visit;
      accepted := map[];
      if !o.certificate || !o.heartbeat || o.payload.None? {
        return false, accepted;
      }
      ghost var start := Begun(State(), o);
      var working := Listed(o.payload.value, o.listed);
      var i := 0;
      NothingVisited(start, o);
      ListedKeys(o.payload.value, o.listed);
      while i < |o.listed|
        invariant 0 <= i <= |o.listed|
        invariant VisitAll(start, o.listed[..i], o) == Progress(working, nextRenew, false)
        invariant forall k :: k in working <==> k in o.listed
        invariant accepted == Accepted(Listed(working, o.listed[..i]), o.now)
      {
        var k := o.listed[i];
        TurnOf(start, o, i, Progress(working, nextRenew, false));
        VisitIs(Progress(working, nextRenew, false), k, o, i);
        ghost var before := working;
        if working[k].phase == Active && (k !in nextRenew || nextRenew[k] <= o.checkedAt(i)) {
          if k !in o.renewals {
            FailureSticks(start, o.listed, i + 1, o);
            return false, accepted;
          }
          working := working[k := WithLease(working[k], o.renewals[k])];
          nextRenew := nextRenew[k := o.renewedAt(i) + RENEW_AFTER_SECONDS];
        }
        AcceptOne(before, working, o.listed, i, o.now);
        if working[k].phase == Active && working[k].isolationDeadline > o.now {
          accepted := accepted[k := working[k]];
        }
        i := i + 1;
      }
      assert o.listed[..|o.listed|] == o.listed;
      AllListed(working, o.listed);
      ok := true;
    }

    // One turn of the loop, with the failure clock and the cut-off.
    method RunOnce(o: Replies)
      requires WellListed(o)
      modifies this
      ensures State() == Round(old(State()), o)
      ensures var p := Visited(old(State()), o);
        published == if failureStarted.Some? && o.judgedAt - failureStarted.value >= 120 then map[]
                     else if p.failed then old(published) else Accepted(p.working, o.now)
    {
      hide Visited; hide Accepted;
      var ok, accepted := Synchronize(o);
      if ok {
        published := accepted;
        ok := o.catalog && o.detector;
      }
      if ok {
        failureStarted := None;
      } else {
        if failureStarted == None {
          failureStarted := Some(o.failedAt);
        }
        if o.judgedAt - failureStarted.value >= CUT_OFF_SECONDS {
          published := map[];
        }
      }
    }
  }

  lemma NothingVisited(start: Progress, o: Replies)
    ensures VisitAll(start, o.listed[..0], o) == start
    ensures Accepted(Listed(start.working, o.listed[..0]), o.now) == map[]
  {
  }

  lemma ListedKeys(t: Table, keys: seq<Key>)
    requires forall k :: k in keys ==> k in t
    ensures forall k :: k in Listed(t, keys) <==> k in keys
  {
  }

  lemma AllListed(t: Table, keys: seq<Key>)
    requires forall k :: k in t <==> k in keys
    ensures Listed(t, keys) == t
  {
  }

  // The cases of a visit that has not failed before.
  lemma VisitIs(p: Progress, k: Key, o: Replies, i: nat)
    requires !p.failed && k in p.working
    ensures Visit(p, k, o, i) ==
      if !(p.working[k].phase.Active? && (k !in p.nextRenew || p.nextRenew[k] <= o.checkedAt(i))) then p
      else if k !in o.renewals then p.(failed := true)
      else Progress(p.working[k := WithLease(p.working[k], o.renewals[k])],
                    p.nextRenew[k := o.renewedAt(i) + RENEW_AFTER_SECONDS], false)
  {
  }

  lemma TurnOf(start: Progress, o: Replies, i: nat, p: Progress)
    requires i < |o.listed| && VisitAll(start, o.listed[..i], o) == p
    ensures VisitAll(start, o.listed[..i + 1], o) == Visit(p, o.listed[i], o, i)
  {
    assert o.listed[..i + 1][..i] == o.listed[..i];
  }

  // Keeping one more row of a working copy in which only that row changed.
  lemma AcceptOne(before: Table, working: Table, keys: seq<Key>, i: nat, now: int)
    requires i < |keys| && forall x, y :: 0 <= x < y < |keys| ==> keys[x] != keys[y]
    requires keys[i] in working && working == before[keys[i] := working[keys[i]]]
    ensures var k := keys[i];
      var kept := Accepted(Listed(before, keys[..i]), now);
      Accepted(Listed(working, keys[..i + 1]), now)
      == if working[k].phase.Active? && working[k].isolationDeadline > now then kept[k := working[k]] else kept
  {
    hide Accepted; hide Listed;
    var k := keys[i];
    assert k !in keys[..i];
    ListedOne(before, working, keys[..i], k);
    assert keys[..i + 1] == keys[..i] + [k];
    AcceptedOne(Listed(before, keys[..i]), k, working[k], now);
  }

  lemma ListedOne(before: Table, working: Table, keys: seq<Key>, k: Key)
    requires k !in keys && k in working && working == before[k := working[k]]
    ensures k !in Listed(before, keys) && Listed(working, keys + [k]) == Listed(before, keys)[k := working[k]]
  {
  }

  lemma AcceptedOne(t: Table, k: Key, e: Row, now: int)
    requires k !in t
    ensures Accepted(t[k := e], now)
         == if e.phase.Active? && e.isolationDeadline > now then Accepted(t, now)[k := e] else Accepted(t, now)
  {
  }
}
