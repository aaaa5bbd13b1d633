// Detector jobs and their media grants (cluster/cluster_service.py:
// create/claim/renew/report of analytics jobs and the frame counter, whose
// fetch happens between two locked blocks).

module DetectorBoard {
  import opened ClusterTypes

  type Token = string
  type RequestId = nat

  const GRANT_SECONDS := 60
  const MAX_FRAMES := 60

  datatype Grant = Grant(job: JobId, node: NodeId, expiresAt: int, count: nat, revoked: bool)
  type Grants = map<Token, Grant>

  // A frame request between its admission and its count.
  datatype Fetch = Fetch(job: JobId, token: Token, current: int)

  // `claims`, `results` and `frames` are history: how often each job was
  // claimed, got an accepted result, and had a frame counted.
  datatype Board = Board(jobs: Jobs, grants: Grants, fetching: map<RequestId, Fetch>, claims: map<JobId, nat>,
                         results: map<JobId, nat>, frames: map<JobId, nat>)

  datatype Step =
    | Create(id: JobId, key: Key, node: NodeId, costs: Costs, now: int)
    | Claim(node: NodeId, eligible: bool, token: Token, now: int)
    | Renew(node: NodeId, id: JobId, generation: nat, now: int)
    | BeginFrame(request: RequestId, node: NodeId, id: JobId, token: Token, now: int)
    | CountFrame(request: RequestId)
    | AbandonFrame(request: RequestId)
    | Report(node: NodeId, id: JobId, generation: nat, digestMatches: bool, completed: bool, now: int)
    | List(now: int)

  function Init(): Board { Board(map[], map[], map[], map[], map[], map[]) }

  // One more than the largest generation of the key's jobs.
  function Generations(jobs: Jobs, key: Key): set<nat>
  {
    set id | id in jobs && jobs[id].key == key :: jobs[id].generation
  }

  ghost predicate IsNext(jobs: Jobs, key: Key, g: nat)
  {
    && (forall x :: x in Generations(jobs, key) ==> x < g)
    && (g == 1 || g - 1 in Generations(jobs, key))
  }

  // Queued jobs of a node are taken by creation time, then id.
  predicate Before(jobs: Jobs, a: JobId, b: JobId)
    requires a in jobs && b in jobs
  {
    jobs[a].createdAt < jobs[b].createdAt || (jobs[a].createdAt == jobs[b].createdAt && a <= b)
  }

  predicate FirstQueued(jobs: Jobs, node: NodeId, id: JobId)
  {
    && id in jobs && jobs[id].node == node && jobs[id].state.Queued?
    && forall x :: x in jobs && jobs[x].node == node && jobs[x].state.Queued? ==> Before(jobs, id, x)
  }

  // The expiry sweep of claim and list.
  function Kept(grants: Grants, now: int): Grants
  {
    map t | t in grants && grants[t].expiresAt > now && !grants[t].revoked :: grants[t]
  }

  // The job is the caller's and its lease has not run out.
  predicate Holds(jobs: Jobs, node: NodeId, id: JobId, generation: nat, now: int)
  {
    id in jobs && jobs[id].node == node && jobs[id].generation == generation && jobs[id].state.Running?
    && jobs[id].leaseExpiresAt >= now
  }

  function Claimed(b: Board, node: NodeId, id: JobId, token: Token, now: int): Board
    requires id in b.jobs
  {
    b.(jobs := b.jobs[id := b.jobs[id].(state := Running, leaseExpiresAt := now + LEASE_SECONDS)],
       grants := b.grants[token := Grant(id, node, now + GRANT_SECONDS, 0, false)],
       claims := b.claims[id := Tally(b.claims, id) + 1])
  }

  function Tally(m: map<JobId, nat>, id: JobId): nat { if id in m then m[id] else 0 }

  function Extended(grants: Grants, id: JobId, node: NodeId, now: int): Grants
  {
    map t | t in grants ::
      if grants[t].job == id && grants[t].node == node && !grants[t].revoked && grants[t].expiresAt > now
      then grants[t].(expiresAt := now + GRANT_SECONDS) else grants[t]
  }

  function RevokedFor(grants: Grants, id: JobId): Grants
  {
    map t | t in grants :: if grants[t].job == id then grants[t].(revoked := true) else grants[t]
  }

  predicate Admits(b: Board, node: NodeId, id: JobId, token: Token, now: int)
  {
    && token in b.grants && id in b.jobs
    && var g := b.grants[token]; var j := b.jobs[id];
    && g.job == id && g.node == node && j.node == node && j.state.Running? && j.generation > 0 && !g.revoked
    && g.expiresAt > now && g.count < MAX_FRAMES && j.leaseExpiresAt >= now
  }

  predicate Counts(grants: Grants, f: Fetch)
  {
    f.token in grants
    && var g := grants[f.token];
    g.job == f.job && !g.revoked && g.expiresAt > f.current && g.count < MAX_FRAMES
  }

  function Counted(b: Board, f: Fetch): Board
    requires f.token in b.grants
  {
    b.(grants := b.grants[f.token := b.grants[f.token].(count := b.grants[f.token].count + 1)],
       frames := b.frames[f.job := Tally(b.frames, f.job) + 1])
  }

  function Reported(b: Board, id: JobId, completed: bool): Board
    requires id in b.jobs
  {
    b.(jobs := b.jobs[id := b.jobs[id].(state := if completed then Done else Broken, leaseExpiresAt := 0)],
       grants := RevokedFor(b.grants, id),
       results := b.results[id := Tally(b.results, id) + 1])
  }

  lemma {:induction false} Largest(s: set<nat>) returns (m: nat)
    requires s != {}
    ensures m in s && forall x :: x in s ==> x <= m
  {
    m :| m in s;
    if s != {m} {
      var n := Largest(s - {m});
      assert forall x :: x in s ==> x == m || x in s - {m};
      m := if m < n then n else m;
    }
  }

  ghost function NextGeneration(jobs: Jobs, key: Key): (g: nat)
    ensures IsNext(jobs, key, g)
  {
    var s := Generations(jobs, key);
    if s == {} then 1
    else
      assert exists m :: m in s && forall x :: x in s ==> x <= m by {
        var m := Largest(s);
      }
      var m :| m in s && forall x :: x in s ==> x <= m;
      m + 1
  }

  // A rejected request changes nothing: the transaction is rolled back.
  ghost function Next(b: Board, step: Step): Board
  {
    match step
    case Create(id, key, node, costs, now) =>
      if id in b.jobs then b
      else
        b.(jobs := b.jobs[id := Job(key, node, NextGeneration(b.jobs, key), Queued, 0, now, costs)])
    case Claim(node, eligible, token, now) =>
      if !eligible then b
      else
        var s := b.(grants := Kept(b.grants, now));
        if !exists id :: FirstQueued(b.jobs, node, id) then s
        else if token in s.grants then b
        else var id :| FirstQueued(b.jobs, node, id); Claimed(s, node, id, token, now)
    case Renew(node, id, generation, now) =>
      if !Holds(b.jobs, node, id, generation, now) then b
      else b.(jobs := b.jobs[id := b.jobs[id].(leaseExpiresAt := now + LEASE_SECONDS)],
              grants := Extended(b.grants, id, node, now))
    case BeginFrame(request, node, id, token, now) =>
      if request in b.fetching || !Admits(b, node, id, token, now) then b
      else b.(fetching := b.fetching[request := Fetch(id, token, now)])
    case CountFrame(request) =>
      if request !in b.fetching then b
      else
        var f := b.fetching[request];
        var s := b.(fetching := b.fetching - {request});
        if Counts(b.grants, f) then Counted(s, f) else s
    case AbandonFrame(request) => b.(fetching := b.fetching - {request})
    case Report(node, id, generation, digestMatches, completed, now) =>
      if !Holds(b.jobs, node, id, generation, now) || !digestMatches then b else Reported(b, id, completed)
    case List(now) => b.(grants := Kept(b.grants, now))
  }

  // First in creation order is unique, so the claimed job is determined.
  lemma FirstQueuedUnique(jobs: Jobs, node: NodeId, a: JobId, b: JobId)
    requires FirstQueued(jobs, node, a) && FirstQueued(jobs, node, b)
    ensures a == b
  {
  }

  ghost function Run(b: Board, steps: seq<Step>): Board
  {
    if steps == [] then b else Next(Run(b, steps[..|steps| - 1]), steps[|steps| - 1])
  }

  // ---------- The invariant ----------

  predicate Finished(s: JobState) { s.Done? || s.Broken? }

  // What each job's history must be in its present state.
  ghost predicate JobOk(b: Board, id: JobId)
  {
    if id !in b.jobs then Tally(b.claims, id) == 0 && Tally(b.results, id) == 0 && Tally(b.frames, id) == 0
    else
      && b.jobs[id].generation > 0
      && Tally(b.claims, id) == (if b.jobs[id].state.Queued? then 0 else 1)
      && Tally(b.results, id) == (if Finished(b.jobs[id].state) then 1 else 0)
      && Tally(b.frames, id) <= (if b.jobs[id].state.Queued? then 0 else MAX_FRAMES)
  }

  // A grant belongs to a claimed job, counts all its frames, and is revoked
  // once the job has its result.
  ghost predicate GrantOk(b: Board, t: Token)
    requires t in b.grants
  {
    var g := b.grants[t];
    && g.job in b.jobs && !b.jobs[g.job].state.Queued?
    && g.count == Tally(b.frames, g.job) <= MAX_FRAMES
    && (Finished(b.jobs[g.job].state) ==> g.revoked)
    && forall u :: u in b.grants && b.grants[u].job == g.job ==> u == t
  }

  // A generation of a key names one job.
  ghost predicate GenerationsDiffer(jobs: Jobs)
  {
    forall a, c :: a in jobs && c in jobs && a != c && jobs[a].key == jobs[c].key
      ==> jobs[a].generation != jobs[c].generation
  }

  ghost predicate Inv(b: Board)
  {
    GenerationsDiffer(b.jobs) && (forall id :: JobOk(b, id)) && (forall t :: t in b.grants ==> GrantOk(b, t))
  }

  lemma ClaimKeepsInv(b: Board, node: NodeId, id: JobId, token: Token, now: int)
    requires Inv(b) && token !in b.grants && id in b.jobs && b.jobs[id].state.Queued?
    ensures Inv(Claimed(b, node, id, token, now))
  {
    var c := Claimed(b, node, id, token, now);
    forall x ensures JobOk(c, x) {
      assert JobOk(b, x);
    }
    forall t | t in c.grants ensures GrantOk(c, t) {
      assert JobOk(b, id);
      if t != token {
        assert GrantOk(b, t);
      } else {
        assert forall u :: u in b.grants ==> GrantOk(b, u);
      }
    }
  }

  lemma CreateKeepsInv(b: Board, id: JobId, job: Job)
    requires Inv(b) && id !in b.jobs && job.state.Queued? && IsNext(b.jobs, job.key, job.generation)
    ensures Inv(b.(jobs := b.jobs[id := job]))
  {
    assert forall x :: x in b.jobs && b.jobs[x].key == job.key ==> b.jobs[x].generation in Generations(b.jobs, job.key);
    var c := b.(jobs := b.jobs[id := job]);
    forall x ensures JobOk(c, x) {
      assert JobOk(b, x);
    }
    forall t | t in c.grants ensures GrantOk(c, t) {
      assert GrantOk(b, t);
    }
  }

  lemma RenewKeepsInv(b: Board, id: JobId, node: NodeId, now: int)
    requires Inv(b) && id in b.jobs
    ensures Inv(b.(jobs := b.jobs[id := b.jobs[id].(leaseExpiresAt := now + LEASE_SECONDS)],
                   grants := Extended(b.grants, id, node, now)))
  {
    var c := b.(jobs := b.jobs[id := b.jobs[id].(leaseExpiresAt := now + LEASE_SECONDS)],
                grants := Extended(b.grants, id, node, now));
    forall x ensures JobOk(c, x) {
      assert JobOk(b, x);
    }
    forall t | t in c.grants ensures GrantOk(c, t) {
      assert GrantOk(b, t);
    }
  }

  lemma CountKeepsInv(b: Board, f: Fetch)
    requires Inv(b) && Counts(b.grants, f)
    ensures Inv(Counted(b, f))
  {
    var c := Counted(b, f);
    assert GrantOk(b, f.token);
    forall x ensures JobOk(c, x) {
      assert JobOk(b, x);
    }
    forall t | t in c.grants ensures GrantOk(c, t) {
      assert GrantOk(b, t);
    }
  }

  lemma ReportKeepsInv(b: Board, id: JobId, completed: bool)
    requires Inv(b) && id in b.jobs && b.jobs[id].state.Running?
    ensures Inv(Reported(b, id, completed))
  {
    var c := Reported(b, id, completed);
    forall x ensures JobOk(c, x) {
      assert JobOk(b, x);
    }
    forall t | t in c.grants ensures GrantOk(c, t) {
      assert GrantOk(b, t);
    }
  }

  // Requests in flight play no part in the invariant.
  lemma FetchingIsFree(b: Board, fetching: map<RequestId, Fetch>)
    requires Inv(b)
    ensures Inv(b.(fetching := fetching))
  {
    var c := b.(fetching := fetching);
    forall x ensures JobOk(c, x) {
      assert JobOk(b, x);
    }
    forall t | t in c.grants ensures GrantOk(c, t) {
      assert GrantOk(b, t);
    }
  }

  lemma SweepKeepsInv(b: Board, now: int)
    requires Inv(b)
    ensures Inv(b.(grants := Kept(b.grants, now)))
  {
    var c := b.(grants := Kept(b.grants, now));
    forall x ensures JobOk(c, x) {
      assert JobOk(b, x);
    }
    forall t | t in c.grants ensures GrantOk(c, t) {
      assert GrantOk(b, t);
    }
  }

  lemma ClaimStepKeepsInv(b: Board, step: Step)
    requires Inv(b) && step.Claim?
    ensures Inv(Next(b, step))
  {
    hide Inv;
    hide Claimed;
    var s := b.(grants := Kept(b.grants, step.now));
    SweepKeepsInv(b, step.now);
    if step.eligible && (exists id :: FirstQueued(b.jobs, step.node, id)) && step.token !in s.grants {
      var id :| FirstQueued(b.jobs, step.node, id) && Next(b, step) == Claimed(s, step.node, id, step.token, step.now);
      ClaimKeepsInv(s, step.node, id, step.token, step.now);
    }
  }

  lemma StepKeepsInv(b: Board, step: Step)
    requires Inv(b)
    ensures Inv(Next(b, step))
  {
    hide Inv;
    hide Reported;
    hide Counted;
    hide Counts;
    match step
    case Create(id, key, node, costs, now) =>
      if id !in b.jobs {
        CreateKeepsInv(b, id, Job(key, node, NextGeneration(b.jobs, key), Queued, 0, now, costs));
      }
    case Claim(_, _, _, _) => ClaimStepKeepsInv(b, step);
    case Renew(node, id, generation, now) =>
      if Holds(b.jobs, node, id, generation, now) {
        RenewKeepsInv(b, id, node, now);
      }
    case BeginFrame(request, node, id, token, now) =>
      FetchingIsFree(b, b.fetching[request := Fetch(id, token, now)]);
    case CountFrame(request) =>
      FetchingIsFree(b, b.fetching - {request});
      if request in b.fetching && Counts(b.grants, b.fetching[request]) {
        CountKeepsInv(b.(fetching := b.fetching - {request}), b.fetching[request]);
      }
    case AbandonFrame(request) => FetchingIsFree(b, b.fetching - {request});
    case Report(node, id, generation, digestMatches, completed, now) =>
      if Holds(b.jobs, node, id, generation, now) {
        ReportKeepsInv(b, id, completed);
      }
    case List(now) => SweepKeepsInv(b, now);
  }

  lemma {:induction false} RunKeepsInv(steps: seq<Step>)
    ensures Inv(Run(Init(), steps))
  {
    if steps != [] {
      RunKeepsInv(steps[..|steps| - 1]);
      StepKeepsInv(Run(Init(), steps[..|steps| - 1]), steps[|steps| - 1]);
    }
  }

  // ---------- Over all runs ----------

  // A job is claimed at most once, has at most one result, and has at most
  // sixty frames counted; it has a result exactly when it is finished.
  lemma OneClaimOneResult(steps: seq<Step>, id: JobId)
    ensures var b := Run(Init(), steps);
            && Tally(b.claims, id) <= 1 && Tally(b.results, id) <= Tally(b.claims, id)
            && Tally(b.frames, id) <= MAX_FRAMES * Tally(b.claims, id)
            && (Tally(b.results, id) == 1 <==> id in b.jobs && Finished(b.jobs[id].state))
  {
    RunKeepsInv(steps);
    assert JobOk(Run(Init(), steps), id);
  }

  lemma OneJobPerGeneration(steps: seq<Step>, a: JobId, c: JobId)
    requires a in Run(Init(), steps).jobs && c in Run(Init(), steps).jobs
    requires Run(Init(), steps).jobs[a].key == Run(Init(), steps).jobs[c].key
    requires Run(Init(), steps).jobs[a].generation == Run(Init(), steps).jobs[c].generation
    ensures a == c
  {
    RunKeepsInv(steps);
  }

  // A result is taken exactly from the job's node under the job's generation,
  // while the job runs and its lease has not run out.
  lemma ResultTakenIff(b: Board, node: NodeId, id: JobId, generation: nat, digestMatches: bool, completed: bool,
                       now: int)
    ensures var c := Next(b, Step.Report(node, id, generation, digestMatches, completed, now));
            (Tally(c.results, id) == Tally(b.results, id) + 1)
            <==> Holds(b.jobs, node, id, generation, now) && digestMatches
  {
  }

  // One step counts a frame only for a running job, and only when it finishes
  // a request that was admitted for that job.
  lemma FrameStep(b: Board, step: Step, id: JobId)
    requires Inv(b) && Tally(Next(b, step).frames, id) != Tally(b.frames, id)
    ensures step.CountFrame? && step.request in b.fetching && b.fetching[step.request].job == id
    ensures id in b.jobs && b.jobs[id].state.Running?
    ensures Tally(Next(b, step).frames, id) == Tally(b.frames, id) + 1
  {
    assert step.CountFrame?;
    var f := b.fetching[step.request];
    assert GrantOk(b, f.token);
  }

  // A finished job stays finished with the same history, one step.
  lemma FinishedStep(b: Board, step: Step, id: JobId)
    requires Inv(b) && id in b.jobs && Finished(b.jobs[id].state)
    ensures id in Next(b, step).jobs && Next(b, step).jobs[id] == b.jobs[id]
    ensures Tally(Next(b, step).frames, id) == Tally(b.frames, id)
  {
    hide Inv;
    hide Tally;
    hide Kept;
    hide Extended;
    hide RevokedFor;
    hide Counts;
    hide FirstQueued;
    if Tally(Next(b, step).frames, id) != Tally(b.frames, id) {
      FrameStep(b, step, id);
    }
    if step.Claim? && step.eligible && exists x :: FirstQueued(b.jobs, step.node, x) {
      assert forall x :: FirstQueued(b.jobs, step.node, x) ==> x != id by {
        FirstIsQueued(b.jobs, step.node, id);
      }
    }
  }

  lemma FirstIsQueued(jobs: Jobs, node: NodeId, id: JobId)
    ensures FirstQueued(jobs, node, id) ==> id in jobs && jobs[id].state.Queued?
  {
  }

  // Once a result is committed the job never changes and no frame of it is
  // counted again, although frames are fetched outside the lock: requests that
  // were admitted before the result find their grant revoked.
  lemma {:induction false} NoFrameAfterResult(steps: seq<Step>, more: seq<Step>, id: JobId)
    requires id in Run(Init(), steps).jobs && Finished(Run(Init(), steps).jobs[id].state)
    ensures var b := Run(Init(), steps); var c := Run(Init(), steps + more);
            id in c.jobs && c.jobs[id] == b.jobs[id] && Tally(c.frames, id) == Tally(b.frames, id)
  {
    hide Inv;
    hide Next;
    hide Tally;
    hide Finished;
    if more == [] {
      assert steps + more == steps;
    } else {
      var shorter := more[..|more| - 1];
      NoFrameAfterResult(steps, shorter, id);
      assert (steps + more)[..|steps + more| - 1] == steps + shorter;
      RunKeepsInv(steps + shorter);
      FinishedStep(Run(Init(), steps + shorter), more[|more| - 1], id);
    }
  }

  // ---------- What the callers get ----------

  predicate QueuedFor(jobs: Jobs, node: NodeId, id: JobId)
  {
    id in jobs && jobs[id].node == node && jobs[id].state.Queued?
  }

  // A nonempty queue has a first job.
  lemma {:induction false} FirstExists(jobs: Jobs, s: set<JobId>) returns (id: JobId)
    requires s != {} && s <= jobs.Keys
    ensures id in s
    ensures forall x :: x in s ==>
      jobs[id].createdAt < jobs[x].createdAt || (jobs[id].createdAt == jobs[x].createdAt && id <= x)
  {
    id :| id in s;
    if s != {id} {
      var other := FirstExists(jobs, s - {id});
      if jobs[other].createdAt < jobs[id].createdAt
         || (jobs[other].createdAt == jobs[id].createdAt && other <= id) {
        id := other;
      }
    }
  }

  lemma QueueHasFirst(jobs: Jobs, node: NodeId) returns (id: JobId)
    requires exists x :: QueuedFor(jobs, node, x)
    ensures FirstQueued(jobs, node, id)
    ensures QueuedFor(jobs, node, id) && forall x :: QueuedFor(jobs, node, x) ==>
      jobs[id].createdAt < jobs[x].createdAt || (jobs[id].createdAt == jobs[x].createdAt && id <= x)
  {
    var queued := set x | x in jobs && QueuedFor(jobs, node, x);
    var x :| QueuedFor(jobs, node, x);
    assert x in queued;
    id := FirstExists(jobs, queued);
    assert forall x :: QueuedFor(jobs, node, x) ==> x in queued;
  }

  // A claim by an eligible node takes its oldest queued job, for thirty
  // seconds, with a fresh grant of sixty frames and sixty seconds; grants that
  // ran out or were revoked are forgotten and the others stay.
  lemma ClaimTakesOldest(b: Board, node: NodeId, token: Token, now: int) returns (id: JobId)
    requires exists x :: QueuedFor(b.jobs, node, x)
    requires token in b.grants ==> b.grants[token].expiresAt <= now || b.grants[token].revoked
    ensures QueuedFor(b.jobs, node, id) && forall x :: QueuedFor(b.jobs, node, x) ==>
      b.jobs[id].createdAt < b.jobs[x].createdAt || (b.jobs[id].createdAt == b.jobs[x].createdAt && id <= x)
    ensures var c := Next(b, Claim(node, true, token, now));
      && c.jobs == b.jobs[id := b.jobs[id].(state := Running, leaseExpiresAt := now + 30)]
      && token in c.grants && c.grants[token] == Grant(id, node, now + 60, 0, false)
      && (forall t :: t != token ==> (t in c.grants <==>
            t in b.grants && b.grants[t].expiresAt > now && !b.grants[t].revoked))
      && (forall t :: t != token && t in c.grants ==> c.grants[t] == b.grants[t])
  {
    id := QueueHasFirst(b.jobs, node);
    var c := Next(b, Claim(node, true, token, now));
    var x :| FirstQueued(b.jobs, node, x) && c == Claimed(b.(grants := Kept(b.grants, now)), node, x, token, now);
    FirstQueuedUnique(b.jobs, node, x, id);
  }

  // Without a queued job, or by a node that is not eligible, nothing is taken.
  lemma NothingToClaim(b: Board, node: NodeId, eligible: bool, token: Token, now: int)
    requires !eligible || forall x :: !QueuedFor(b.jobs, node, x)
    ensures Next(b, Claim(node, eligible, token, now)).jobs == b.jobs
    ensures token !in b.grants ==> token !in Next(b, Claim(node, eligible, token, now)).grants
  {
    forall x | FirstQueued(b.jobs, node, x) ensures QueuedFor(b.jobs, node, x) {
    }
  }

  // Listing forgets the same grants, and giving up a frame request counts
  // nothing.
  lemma ForgettingMeans(b: Board, now: int, request: RequestId)
    ensures var c := Next(b, List(now));
      && c == b.(grants := c.grants)
      && (forall t :: t in c.grants <==> t in b.grants && b.grants[t].expiresAt > now && !b.grants[t].revoked)
      && (forall t :: t in c.grants ==> c.grants[t] == b.grants[t])
    ensures Next(b, AbandonFrame(request)) == b.(fetching := b.fetching - {request})
  {
  }

  // The node has the job until `end`, and may fetch frames for it.
  predicate Serving(b: Board, node: NodeId, id: JobId, generation: nat, token: Token, end: int)
  {
    && id in b.jobs && b.jobs[id].node == node && b.jobs[id].generation == generation && b.jobs[id].state.Running?
    && b.jobs[id].leaseExpiresAt >= end
    && token in b.grants
    && var g := b.grants[token];
    g.job == id && g.node == node && !g.revoked && g.expiresAt > end
  }

  // When a step reads the clock.
  predicate NotLater(step: Step, end: int)
  {
    match step
    case Create(_, _, _, _, now) => now <= end
    case Claim(_, _, _, now) => now <= end
    case Renew(_, _, _, now) => now <= end
    case BeginFrame(_, _, _, _, now) => now <= end
    case Report(_, _, _, _, _, now) => now <= end
    case List(now) => now <= end
    case _ => true
  }

  predicate EndsJob(step: Step, node: NodeId, id: JobId) { step.Report? && step.node == node && step.id == id }

  // A renewal while the job is held gives thirty seconds more, to the job and
  // its grant; nothing but the node's own result ends it earlier.
  lemma ServingStep(b: Board, step: Step, node: NodeId, id: JobId, generation: nat, token: Token, end: int)
    requires Serving(b, node, id, generation, token, end) && NotLater(step, end) && !EndsJob(step, node, id)
    requires step.Renew? && step.node == node && step.id == id ==> step.now + 30 >= end
    ensures Serving(Next(b, step), node, id, generation, token, end)
    ensures step.Renew? && step.node == node && step.id == id && step.generation == generation ==>
      Serving(Next(b, step), node, id, generation, token, step.now + 30)
  {
    hide FirstQueued; hide Counts; hide Admits;
    if step.Claim? && step.eligible && exists x :: FirstQueued(b.jobs, step.node, x) {
      FirstIsQueuedOnly(b.jobs, step.node, id);
    }
  }

  lemma FirstIsQueuedOnly(jobs: Jobs, node: NodeId, id: JobId)
    requires id in jobs && !jobs[id].state.Queued?
    ensures !FirstQueued(jobs, node, id)
  {
  }

  // A grant that ran out or was revoked is not brought back: it stays as it
  // is until it is forgotten or its token is given out anew.
  lemma DeadGrantStaysDead(b: Board, step: Step, token: Token, now: int)
    requires token in b.grants && (b.grants[token].revoked || b.grants[token].expiresAt <= now)
    requires (step.Renew? ==> step.now >= now) && (step.Claim? ==> step.token != token)
    requires token in Next(b, step).grants
    ensures var g := Next(b, step).grants[token];
      g.expiresAt == b.grants[token].expiresAt && (b.grants[token].revoked ==> g.revoked)
  {
    hide FirstQueued; hide Admits;
  }

  // What holding a job is worth: until the lease ends the node can renew,
  // report and, with frames left, fetch; nobody else can.
  lemma ServingMeans(b: Board, node: NodeId, id: JobId, generation: nat, token: Token, end: int, now: int)
    requires Serving(b, node, id, generation, token, end) && now <= end && generation > 0
    ensures Holds(b.jobs, node, id, generation, now)
    ensures Admits(b, node, id, token, now) <==> b.grants[token].count < 60
    ensures forall m, g :: m != node || g != generation ==> !Holds(b.jobs, m, id, g, now)
    ensures forall m, t :: m != node ==> !Admits(b, m, id, t, now)
    ensures now > b.jobs[id].leaseExpiresAt ==> !Holds(b.jobs, node, id, generation, now)
  {
  }

  lemma {:induction false} JobIsServed(b: Board, more: seq<Step>, node: NodeId, id: JobId, generation: nat,
                                       token: Token, end: int)
    requires Serving(b, node, id, generation, token, end)
    requires forall i :: 0 <= i < |more| ==>
      && NotLater(more[i], end) && !EndsJob(more[i], node, id)
      && (more[i].Renew? && more[i].node == node && more[i].id == id ==> more[i].now + 30 >= end)
    ensures Serving(Run(b, more), node, id, generation, token, end)
  {
    if more != [] {
      hide Next; hide Serving; hide NotLater;
      JobIsServed(b, more[..|more| - 1], node, id, generation, token, end);
      ServingStep(Run(b, more[..|more| - 1]), more[|more| - 1], node, id, generation, token, end);
    }
  }

  // A frame request that is admitted and finished under a live grant is
  // counted, once.
  lemma AdmittedFrameCounts(b: Board, request: RequestId, node: NodeId, id: JobId, token: Token, now: int)
    requires Admits(b, node, id, token, now) && request !in b.fetching
    ensures var c := Next(Next(b, BeginFrame(request, node, id, token, now)), CountFrame(request));
      && Tally(c.frames, id) == Tally(b.frames, id) + 1
      && c.grants == b.grants[token := b.grants[token].(count := b.grants[token].count + 1)]
      && c.jobs == b.jobs && c.fetching == b.fetching
  {
  }

  // Admission needs all of it: the job running on the node under a lease that
  // has not run out, and a grant for it that is live and has frames left.
  lemma AdmitsOnlyServing(b: Board, node: NodeId, id: JobId, token: Token, now: int)
    requires Inv(b) && Admits(b, node, id, token, now)
    ensures b.jobs[id].node == node && b.jobs[id].state.Running? && b.jobs[id].leaseExpiresAt >= now
    ensures b.grants[token].job == id && b.grants[token].node == node && !b.grants[token].revoked
    ensures b.grants[token].expiresAt > now && Tally(b.frames, id) < 60
  {
    assert GrantOk(b, token);
  }

  // An accepted result is what was reported, for ever, and closes the job's
  // grants; a refused one changes nothing.
  lemma ResultIsFinal(steps: seq<Step>, node: NodeId, id: JobId, generation: nat, completed: bool, now: int,
                      more: seq<Step>)
    requires var b := Run(Init(), steps);
      id in b.jobs && b.jobs[id].node == node && b.jobs[id].generation == generation && b.jobs[id].state.Running?
      && b.jobs[id].leaseExpiresAt >= now
    ensures var b := Run(Init(), steps);
      var c := Run(Init(), steps + [Step.Report(node, id, generation, true, completed, now)] + more);
      && id in c.jobs
      && c.jobs[id] == b.jobs[id].(state := if completed then Done else Broken, leaseExpiresAt := 0)
      && forall m, t, later :: !Admits(c, m, id, t, later)
  {
    var reported := steps + [Step.Report(node, id, generation, true, completed, now)];
    assert reported[..|reported| - 1] == steps;
    NoFrameAfterResult(reported, more, id);
  }

  lemma RefusedResultChangesNothing(b: Board, node: NodeId, id: JobId, generation: nat, digestMatches: bool,
                                    completed: bool, now: int)
    requires !(id in b.jobs && b.jobs[id].node == node && b.jobs[id].generation == generation
               && b.jobs[id].state.Running? && b.jobs[id].leaseExpiresAt >= now && digestMatches)
    ensures Next(b, Step.Report(node, id, generation, digestMatches, completed, now)) == b
  {
  }

  // A new job waits in its node's queue under the next generation of its key.
  lemma CreatedJobWaits(b: Board, id: JobId, key: Key, node: NodeId, costs: Costs, now: int)
    requires id !in b.jobs
    ensures var c := Next(b, Create(id, key, node, costs, now));
      && c.jobs - {id} == b.jobs && QueuedFor(c.jobs, node, id)
      && c.jobs[id].key == key && c.jobs[id].createdAt == now && c.jobs[id].costs == costs
      && (forall x :: x in b.jobs && b.jobs[x].key == key ==> b.jobs[x].generation < c.jobs[id].generation)
      && (c.jobs[id].generation == 1
          || exists x :: x in b.jobs && b.jobs[x].key == key && b.jobs[x].generation == c.jobs[id].generation - 1)
  {
    assert forall x :: x in b.jobs && b.jobs[x].key == key ==> b.jobs[x].generation in Generations(b.jobs, key);
  }
}

module DetectorService {
  import opened ClusterTypes
  import opened DetectorBoard
  import opened Options

  // The detector tables as the controller keeps them. Each method is one
  // locked block; the ghost fields only record history.
  class DetectorStore {
    var jobs: Jobs
    var grants: Grants
    var fetching: map<RequestId, Fetch>
    ghost var claims: map<JobId, nat>
    ghost var results: map<JobId, nat>
    ghost var frames: map<JobId, nat>

    ghost function Tables(): Board
      reads this
    {
      Board(jobs, grants, fetching, claims, results, frames)
    }

    constructor ()
      ensures Tables() == Init()
    {
      jobs, grants, fetching := map[], map[], map[];
      claims, results, frames := map[], map[], map[];
    }

    // The first of the node's queued jobs, by creation time and id.
    method FindQueued(node: NodeId) returns (found: Option<JobId>)
      ensures found.None? ==> forall x :: !FirstQueued(jobs, node, x)
      ensures found.Some? ==> FirstQueued(jobs, node, found.value)
    {
      found := None;
      var rest := jobs.Keys;
      while rest != {}
        invariant rest <= jobs.Keys
        invariant found.None? ==> forall x :: x in jobs && x !in rest ==> jobs[x].node != node || !jobs[x].state.Queued?
        invariant found.Some? ==> found.value in jobs && jobs[found.value].node == node
                                  && jobs[found.value].state.Queued?
        invariant found.Some? ==> forall x :: x in jobs && x !in rest && jobs[x].node == node && jobs[x].state.Queued?
                                    ==> Before(jobs, found.value, x)
        decreases |rest|
      {
        var id :| id in rest;
        rest := rest - {id};
        if jobs[id].node == node && jobs[id].state.Queued? && (found.None? || !Before(jobs, found.value, id)) {
          found := Some(id);
        }
      }
    }

    method Claim(node: NodeId, eligible: bool, token: Token, now: int) returns (job: Option<JobId>)
      modifies this
      ensures Tables() == Next(old(Tables()), Step.Claim(node, eligible, token, now))
      ensures job.Some? ==> eligible && FirstQueued(old(jobs), node, job.value) && Holds(jobs, node, job.value,
                                old(jobs)[job.value].generation, now + LEASE_SECONDS)
      ensures job.None? ==> jobs == old(jobs)
    {
      job := None;
      if !eligible {
        return;
      }
      var kept := Kept(grants, now);
      var found := FindQueued(node);
      if found.None? {
        grants := kept;
      } else if token !in kept {
        var id := found.value;
        forall x | FirstQueued(jobs, node, x) ensures x == id {
          FirstQueuedUnique(jobs, node, x, id);
        }
        jobs := jobs[id := jobs[id].(state := Running, leaseExpiresAt := now + LEASE_SECONDS)];
        grants := kept[token := Grant(id, node, now + GRANT_SECONDS, 0, false)];
        claims := claims[id := Tally(claims, id) + 1];
        job := found;
      }
    }

    method Renew(node: NodeId, id: JobId, generation: nat, now: int) returns (ok: bool)
      modifies this`jobs, this`grants
      ensures Tables() == Next(old(Tables()), Step.Renew(node, id, generation, now))
      ensures ok == Holds(old(jobs), node, id, generation, now)
    {
      ok := false;
      if id in jobs {
        var row := jobs[id];
        if !(row.node != node || row.generation != generation || !row.state.Running? || row.leaseExpiresAt < now) {
          jobs := jobs[id := row.(leaseExpiresAt := now + LEASE_SECONDS)];
          grants := Extended(grants, id, node, now);
          ok := true;
        }
      }
    }

    // The check before a frame is fetched.
    method AdmitFrame(request: RequestId, node: NodeId, id: JobId, token: Token, now: int) returns (ok: bool)
      requires request !in fetching
      modifies this`fetching
      ensures Tables() == Next(old(Tables()), BeginFrame(request, node, id, token, now))
      ensures ok == Admits(old(Tables()), node, id, token, now)
    {
      ok := false;
      if token in grants && id in jobs {
        var g, job := grants[token], jobs[id];
        if !(g.job != id || g.node != node || job.node != node || !job.state.Running? || job.generation <= 0 ||
             g.revoked || g.expiresAt <= now || g.count >= MAX_FRAMES || job.leaseExpiresAt < now) {
          fetching := fetching[request := Fetch(id, token, now)];
          ok := true;
        }
      }
    }

    // The compare-and-update after a frame was fetched and validated.
    method FinishFrame(request: RequestId) returns (ok: bool)
      requires request in fetching
      modifies this
      ensures Tables() == Next(old(Tables()), CountFrame(request))
      ensures ok == Counts(old(grants), old(fetching)[request])
    {
      var f := fetching[request];
      fetching := fetching - {request};
      ok := false;
      if f.token in grants {
        var g := grants[f.token];
        if g.job == f.job && !g.revoked && g.expiresAt > f.current && g.count < MAX_FRAMES {
          grants := grants[f.token := g.(count := g.count + 1)];
          frames := frames[f.job := Tally(frames, f.job) + 1];
          ok := true;
        }
      }
    }

    method ReportResult(node: NodeId, id: JobId, generation: nat, digestMatches: bool, completed: bool, now: int)
      returns (ok: bool)
      modifies this
      ensures Tables() == Next(old(Tables()), Step.Report(node, id, generation, digestMatches, completed, now))
      ensures ok == (Holds(old(jobs), node, id, generation, now) && digestMatches)
    {
      ok := false;
      if id in jobs {
        var row := jobs[id];
        if !(row.node != node || row.generation != generation || !row.state.Running? || row.leaseExpiresAt < now) &&
           digestMatches {
          jobs := jobs[id := row.(state := if completed then Done else Broken, leaseExpiresAt := 0)];
          grants := RevokedFor(grants, id);
          results := results[id := Tally(results, id) + 1];
          ok := true;
        }
      }
    }
  }
}
