// The evidence export job machine (nvr/evidence.py, class ExportJobs and the
// publication transaction of export_evidence).

module ExportMachine {
  import opened Options

  type JobId = string
  datatype State = Queued | Running | Cancelling | Completed | Failed | Cancelled | Interrupted
  datatype Job = Job(owner: string, requestId: string, request: string, state: State, createdMs: int)
  type Jobs = map<JobId, Job>

  const MAX_OUTSTANDING := 8

  // Where the one worker thread is: idle, converting a job, holding the
  // verdict of a failed conversion, or about to drop the job's cancel event.
  datatype Worker = Idle | Converting(job: JobId) | Failing(job: JobId, verdict: State) | Finishing(job: JobId)

  // A cancel call that has read the job and set its event but has not
  // written the new state yet; it holds the jobs lock meanwhile.
  datatype Canceller = Canceller(job: JobId, state: State)

  // `events` maps a job to whether its cancel event is set; `doomed` is
  // history: the jobs some cancel call found active.
  datatype Machine = Machine(jobs: Jobs, exports: set<JobId>, events: map<JobId, bool>, accepting: bool,
                             worker: Worker, canceller: Option<Canceller>, doomed: set<JobId>)

  datatype Step =
    | Accept(accepting: bool)
    | Submit(owner: string, requestId: string, request: string, id: JobId, now: int)
    | CancelRead(owner: string, id: JobId)
    | CancelWrite
    | Claim(id: JobId)
    | ConversionFails
    | StoreFailure
    | PublishJob
    | ReturnFromExport
    | DropEvent
    | PublishDirect(id: JobId)
    | Restart

  function Init(): Machine { Machine(map[], {}, map[], true, Idle, None, {}) }

  predicate Active(s: State) { s.Queued? || s.Running? || s.Cancelling? }

  function Outstanding(jobs: Jobs): set<JobId>
  {
    set id | id in jobs && Active(jobs[id].state)
  }

  predicate Known(jobs: Jobs, owner: string, requestId: string)
  {
    exists id :: id in jobs && jobs[id].owner == owner && jobs[id].requestId == requestId
  }

  function Submitted(m: Machine, owner: string, requestId: string, request: string, id: JobId, now: int): Machine
  {
    if Known(m.jobs, owner, requestId) || !m.accepting || |Outstanding(m.jobs)| >= MAX_OUTSTANDING then m
    else m.(jobs := m.jobs[id := Job(owner, requestId, request, Queued, now)])
  }

  function WithState(jobs: Jobs, id: JobId, state: State): Jobs
    requires id in jobs
  {
    jobs[id := jobs[id].(state := state)]
  }

  function CancelBegun(m: Machine, owner: string, id: JobId): Machine
  {
    if id !in m.jobs || m.jobs[id].owner != owner || !Active(m.jobs[id].state) then m
    else
      var target := if m.jobs[id].state.Queued? then Cancelled else Cancelling;
      m.(canceller := Some(Canceller(id, target)),
         events := if id in m.events then m.events[id := true] else m.events,
         doomed := m.doomed + {id})
  }

  predicate Oldest(jobs: Jobs, id: JobId)
  {
    id in jobs && jobs[id].state.Queued?
    && forall x :: x in jobs && jobs[x].state.Queued? ==> jobs[id].createdMs <= jobs[x].createdMs
  }

  function Interrupt(jobs: Jobs): Jobs
  {
    map id | id in jobs :: if Active(jobs[id].state) then jobs[id].(state := Interrupted) else jobs[id]
  }

  // The publication transaction: it checks the cancel event under the lock,
  // then adds the exports row and completes the job at once.
  function Published(m: Machine): Machine
    requires m.worker.Converting?
  {
    var id := m.worker.job;
    if id !in m.events || id !in m.jobs || m.events[id] then m.(worker := Failing(id, Cancelled))
    else m.(exports := m.exports + {id}, jobs := WithState(m.jobs, id, Completed))
  }

  function StoredFailure(m: Machine): Machine
    requires m.worker.Failing?
  {
    var id := m.worker.job;
    m.(worker := Finishing(id),
       jobs := if id in m.jobs && !m.jobs[id].state.Completed? then WithState(m.jobs, id, m.worker.verdict) else m.jobs)
  }

  // Steps that take the jobs lock wait while a cancel call holds it; storing
  // a failure does not take it.
  function Next(m: Machine, step: Step): Machine
  {
    match step
    case Accept(accepting) => m.(accepting := accepting)
    case Submit(owner, requestId, request, id, now) =>
      if m.canceller.Some? || id in m.jobs || id in m.exports then m
      else Submitted(m, owner, requestId, request, id, now)
    case CancelRead(owner, id) => if m.canceller.Some? then m else CancelBegun(m, owner, id)
    case CancelWrite =>
      if m.canceller.None? || m.canceller.value.job !in m.jobs then m
      else m.(jobs := WithState(m.jobs, m.canceller.value.job, m.canceller.value.state), canceller := None)
    case Claim(id) =>
      if m.canceller.Some? || !m.worker.Idle? || !Oldest(m.jobs, id) then m
      else m.(jobs := WithState(m.jobs, id, Running), events := m.events[id := false], worker := Converting(id))
    case ConversionFails =>
      if !m.worker.Converting? then m
      else
        var id := m.worker.job;
        m.(worker := Failing(id, if id in m.events && m.events[id] then Cancelled else Failed))
    case StoreFailure => if !m.worker.Failing? then m else StoredFailure(m)
    case PublishJob =>
      if !m.worker.Converting? || m.canceller.Some? || m.worker.job in m.exports then m else Published(m)
    case ReturnFromExport =>
      if !m.worker.Converting? || m.worker.job !in m.exports then m else m.(worker := Finishing(m.worker.job))
    case DropEvent =>
      if !m.worker.Finishing? || m.canceller.Some? then m
      else m.(worker := Idle, events := m.events - {m.worker.job})
    case PublishDirect(id) => if id in m.jobs || id in m.exports then m else m.(exports := m.exports + {id})
    case Restart =>
      m.(jobs := Interrupt(m.jobs), events := map[], accepting := true, worker := Idle, canceller := None)
  }

  function Run(m: Machine, steps: seq<Step>): Machine
  {
    if steps == [] then m else Next(Run(m, steps[..|steps| - 1]), steps[|steps| - 1])
  }

  // ---------- The invariant ----------

  // The jobs a new submission must count: also the one a cancel call is
  // about to write, whatever the worker stored in between.
  function Pending(m: Machine): set<JobId>
  {
    Outstanding(m.jobs) + if m.canceller.Some? then {m.canceller.value.job} else {}
  }

  ghost predicate CompletedOk(m: Machine)
  {
    forall id :: id in m.jobs ==> (m.jobs[id].state.Completed? <==> id in m.exports)
  }

  ghost predicate RequestsOk(m: Machine)
  {
    forall x, y :: x in m.jobs && y in m.jobs && x != y ==>
      m.jobs[x].owner != m.jobs[y].owner || m.jobs[x].requestId != m.jobs[y].requestId
  }

  ghost predicate WorkerOk(m: Machine)
  {
    && (m.worker.Converting? ==>
          var id := m.worker.job;
          && id in m.jobs && id in m.events
          && (m.jobs[id].state.Running? || m.jobs[id].state.Completed?
              || (m.jobs[id].state.Cancelling? && m.events[id])))
    && (m.worker.Failing? ==>
          var id := m.worker.job;
          && id in m.jobs && (m.worker.verdict.Failed? || m.worker.verdict.Cancelled?)
          && (m.jobs[id].state.Running? || m.jobs[id].state.Cancelling? || m.jobs[id].state.Completed?))
    && (forall id :: id in m.events ==> !m.worker.Idle? && m.worker.job == id)
    && (!m.worker.Idle? ==> m.worker.job in m.jobs && !m.jobs[m.worker.job].state.Queued?)
  }

  // While a cancel call holds the lock, its job is neither completed nor
  // claimed, and a running conversion has already been told.
  ghost predicate CancellerOk(m: Machine)
  {
    m.canceller.Some? ==>
      var c := m.canceller.value;
      && c.job in m.jobs && !m.jobs[c.job].state.Completed?
      && (c.state.Cancelled? || c.state.Cancelling?)
      && (c.state.Cancelled? ==> m.jobs[c.job].state.Queued?)
      && (c.state.Cancelling? ==> !m.jobs[c.job].state.Queued?)
      && (m.worker.Converting? && m.worker.job == c.job ==> c.job in m.events && m.events[c.job])
  }

  // A cancelled job is not completed; its event, if it has one, is set, and
  // it can be queued only until the cancel call writes.
  ghost predicate DoomedOk(m: Machine)
  {
    forall id :: id in m.doomed ==>
      && id in m.jobs && !m.jobs[id].state.Completed?
      && (m.jobs[id].state.Queued? ==> m.canceller.Some? && m.canceller.value.job == id)
      && (id in m.events ==> m.events[id])
  }

  ghost predicate Inv(m: Machine)
  {
    CompletedOk(m) && RequestsOk(m) && WorkerOk(m) && CancellerOk(m) && DoomedOk(m) && |Pending(m)| <= MAX_OUTSTANDING
  }

  lemma SubsetSize(a: set<JobId>, b: set<JobId>)
    requires a <= b
    ensures |a| <= |b|
  {
    assert b == a + (b - a);
  }

  // Only a submission makes a job pending.
  lemma PendingShrinks(m: Machine, step: Step)
    requires WorkerOk(m) && CancellerOk(m) && !step.Submit?
    ensures Pending(Next(m, step)) <= Pending(m)
  {
  }

  lemma StepKeepsInv(m: Machine, step: Step)
    requires Inv(m)
    ensures Inv(Next(m, step))
  {
    hide Pending; hide Outstanding; hide Oldest; hide Known;
    match step
    case Submit(owner, requestId, request, id, now) => SubmitKeepsInv(m, owner, requestId, request, id, now);
    case _ =>
      PendingShrinks(m, step);
      SubsetSize(Pending(Next(m, step)), Pending(m));
      hide Next; hide CompletedOk; hide RequestsOk; hide WorkerOk; hide CancellerOk; hide DoomedOk;
      KeepsCompleted(m, step);
      KeepsRequests(m, step);
      KeepsWorker(m, step);
      KeepsCanceller(m, step);
      KeepsDoomed(m, step);
  }

  lemma SubmitKeepsInv(m: Machine, owner: string, requestId: string, request: string, id: JobId, now: int)
    requires Inv(m)
    ensures Inv(Next(m, Submit(owner, requestId, request, id, now)))
  {
    hide Outstanding;
    var t := Next(m, Submit(owner, requestId, request, id, now));
    if t != m {
      assert m.jobs.Keys + {id} == t.jobs.Keys;
      assert RequestsOk(t) && CompletedOk(t) && WorkerOk(t) && DoomedOk(t) && CancellerOk(t);
      OneMoreOutstanding(m, t, id);
    }
  }

  lemma OneMoreOutstanding(m: Machine, t: Machine, id: JobId)
    requires id !in m.jobs && t.jobs.Keys == m.jobs.Keys + {id} && (forall x :: x in m.jobs ==> t.jobs[x] == m.jobs[x])
    requires |Outstanding(m.jobs)| < MAX_OUTSTANDING && t.canceller.None?
    ensures |Pending(t)| <= MAX_OUTSTANDING
  {
    SubsetSize(Pending(t), Outstanding(m.jobs) + {id});
  }

  lemma KeepsCompleted(m: Machine, step: Step)
    requires CompletedOk(m) && WorkerOk(m) && CancellerOk(m) && !step.Submit?
    ensures CompletedOk(Next(m, step))
  {
  }

  lemma KeepsRequests(m: Machine, step: Step)
    requires RequestsOk(m) && CancellerOk(m) && !step.Submit?
    ensures RequestsOk(Next(m, step))
  {
    RequestsStay(m, step);
  }

  // Only a submission changes who asked for what.
  lemma RequestsStay(m: Machine, step: Step)
    requires CancellerOk(m) && !step.Submit?
    ensures var t := Next(m, step);
      && t.jobs.Keys == m.jobs.Keys
      && forall id :: id in m.jobs ==>
           t.jobs[id].owner == m.jobs[id].owner && t.jobs[id].requestId == m.jobs[id].requestId
  {
  }

  lemma KeepsWorker(m: Machine, step: Step)
    requires WorkerOk(m) && CancellerOk(m) && DoomedOk(m) && !step.Submit?
    ensures WorkerOk(Next(m, step))
  {
  }

  lemma KeepsCanceller(m: Machine, step: Step)
    requires WorkerOk(m) && CancellerOk(m) && !step.Submit?
    ensures CancellerOk(Next(m, step))
  {
  }

  lemma KeepsDoomed(m: Machine, step: Step)
    requires WorkerOk(m) && CancellerOk(m) && DoomedOk(m) && !step.Submit?
    ensures DoomedOk(Next(m, step))
  {
    hide Next; hide WorkerOk; hide CancellerOk; hide DoomedOk;
    if step.CancelRead? || step.CancelWrite? {
      CancelKeepsDoomed(m, step);
    } else {
      OthersKeepDoomed(m, step);
    }
  }

  lemma CancelKeepsDoomed(m: Machine, step: Step)
    requires WorkerOk(m) && CancellerOk(m) && DoomedOk(m) && (step.CancelRead? || step.CancelWrite?)
    ensures DoomedOk(Next(m, step))
  {
  }

  lemma OthersKeepDoomed(m: Machine, step: Step)
    requires WorkerOk(m) && CancellerOk(m) && DoomedOk(m)
    requires !step.Submit? && !step.CancelRead? && !step.CancelWrite?
    ensures DoomedOk(Next(m, step))
  {
  }

  lemma {:induction false} RunKeepsInv(steps: seq<Step>)
    ensures Inv(Run(Init(), steps))
  {
    if steps != [] {
      RunKeepsInv(steps[..|steps| - 1]);
      StepKeepsInv(Run(Init(), steps[..|steps| - 1]), steps[|steps| - 1]);
    } else {
      assert Pending(Init()) == {};
    }
  }

  lemma {:induction false} RunConcat(m: Machine, a: seq<Step>, b: seq<Step>)
    ensures Run(m, a + b) == Run(Run(m, a), b)
  {
    if b == [] {
      assert a + b == a;
    } else {
      RunConcat(m, a, b[..|b| - 1]);
      assert (a + b)[..|a + b| - 1] == a + b[..|b| - 1];
    }
  }

  // ---------- Over all runs ----------

  // A job is completed exactly when its exports row exists, no two jobs
  // share an owner's request id, and at most eight are outstanding.
  lemma JobsAgreeWithExports(steps: seq<Step>)
    ensures var m := Run(Init(), steps);
      && (forall id :: id in m.jobs ==> (m.jobs[id].state.Completed? <==> id in m.exports))
      && RequestsOk(m)
      && |Outstanding(m.jobs)| <= MAX_OUTSTANDING
  {
    RunKeepsInv(steps);
    var m := Run(Init(), steps);
    SubsetSize(Outstanding(m.jobs), Pending(m));
  }

  lemma StepKeepsFinal(m: Machine, step: Step, id: JobId)
    requires CancellerOk(m) && WorkerOk(m) && id in m.jobs
    ensures id in Next(m, step).jobs && m.doomed <= Next(m, step).doomed
    ensures m.jobs[id].state.Completed? ==> Next(m, step).jobs[id] == m.jobs[id]
  {
  }

  // A completed job stays as it is for ever.
  lemma {:induction false} CompletedIsFinal(steps: seq<Step>, more: seq<Step>, id: JobId)
    requires id in Run(Init(), steps).jobs
    ensures var m := Run(Init(), steps + more);
      && id in m.jobs && Run(Init(), steps).doomed <= m.doomed
      && (Run(Init(), steps).jobs[id].state.Completed? ==> m.jobs[id] == Run(Init(), steps).jobs[id])
  {
    if more == [] {
      assert steps + more == steps;
    } else {
      var before := more[..|more| - 1];
      CompletedIsFinal(steps, before, id);
      assert (steps + more)[..|steps + more| - 1] == steps + before;
      RunKeepsInv(steps + before);
      StepKeepsFinal(Run(Init(), steps + before), more[|more| - 1], id);
    }
  }

  // Once a cancel call has found a job active, the job is never published,
  // whatever the worker was doing and whatever happens afterwards.
  lemma CancelledJobNeverPublishes(steps: seq<Step>, owner: string, id: JobId, more: seq<Step>)
    requires var m := Run(Init(), steps);
      m.canceller.None? && id in m.jobs && m.jobs[id].owner == owner && Active(m.jobs[id].state)
    ensures id !in Run(Init(), steps + [CancelRead(owner, id)] + more).exports
  {
    var started := steps + [CancelRead(owner, id)];
    assert started[..|started| - 1] == steps;
    assert id in Run(Init(), started).doomed;
    RunKeepsInv(started);
    CompletedIsFinal(started, more, id);
    RunKeepsInv(started + more);
  }

  predicate Cancels(m: Machine, id: JobId) { m.canceller.Some? && m.canceller.value.job == id }

  // Failed is final but for one step: the write of a cancel call that read
  // the job before the failure was stored.
  lemma FailedChangesExactly(m: Machine, step: Step, id: JobId)
    requires WorkerOk(m) && CancellerOk(m) && id in m.jobs && m.jobs[id].state.Failed?
    ensures id in Next(m, step).jobs
    ensures Next(m, step).jobs[id] != m.jobs[id] <==> step.CancelWrite? && Cancels(m, id)
    ensures Cancels(Next(m, step), id) ==> Cancels(m, id)
  {
    hide Known; hide Outstanding;
  }

  lemma {:induction false} UncancelledFailedStays(steps: seq<Step>, more: seq<Step>, id: JobId)
    requires var m := Run(Init(), steps); id in m.jobs && m.jobs[id].state.Failed? && !Cancels(m, id)
    ensures var m, t := Run(Init(), steps), Run(Init(), steps + more);
      id in t.jobs && t.jobs[id] == m.jobs[id] && !Cancels(t, id)
  {
    hide Next; hide Inv; hide Cancels;
    if more == [] {
      assert steps + more == steps;
    } else {
      var before, step := more[..|more| - 1], more[|more| - 1];
      UncancelledFailedStays(steps, before, id);
      RunKeepsInv(steps + before);
      InvParts(Run(Init(), steps + before));
      FailedChangesExactly(Run(Init(), steps + before), step, id);
      assert steps + more == steps + before + [step];
      var longer := Extend(steps + before, step);
    }
  }

  lemma InvParts(m: Machine)
    requires Inv(m)
    ensures WorkerOk(m) && CancellerOk(m)
  {
  }

  // A failed job stays failed for ever exactly when no pending cancel call
  // names it.
  lemma FailedIsFinalIff(steps: seq<Step>, id: JobId)
    requires var m := Run(Init(), steps); id in m.jobs && m.jobs[id].state.Failed?
    ensures var m := Run(Init(), steps);
      (forall more :: var t := Run(Init(), steps + more); id in t.jobs && t.jobs[id] == m.jobs[id]) <==> !Cancels(m, id)
  {
    var m := Run(Init(), steps);
    if Cancels(m, id) {
      RunKeepsInv(steps);
      InvParts(m);
      FailedChangesExactly(m, CancelWrite, id);
      var longer := Extend(steps, CancelWrite);
      assert Run(Init(), steps + [CancelWrite]).jobs[id] != m.jobs[id];
    } else {
      forall more ensures var t := Run(Init(), steps + more); id in t.jobs && t.jobs[id] == m.jobs[id] {
        UncancelledFailedStays(steps, more, id);
      }
    }
  }

  // Such a cancel call can be pending: the failure update does not take the
  // lock, so it can fall between the call's read and its write. The job is
  // then cancelling although its worker has let go of it.
  lemma FailedJobCanTurnCancelling()
    ensures exists steps, id ::
      var m := Run(Init(), steps);
      var t := Run(Init(), steps + [CancelWrite] + [DropEvent]);
      && id in m.jobs && m.jobs[id].state.Failed?
      && id in t.jobs && t.jobs[id].state.Cancelling? && t.worker.Idle?
  {
    hide Run; hide Next;
    var submitted := Extend([], Submit("o", "r", "q", "a", 0));
    StartsIdle();
    var claimed := Extend(submitted, Claim("a"));
    var failing := Extend(claimed, ConversionFails);
    var read := Extend(failing, CancelRead("o", "a"));
    var stored := Extend(read, StoreFailure);
    var written := Extend(stored, CancelWrite);
    var dropped := Extend(written, DropEvent);
    var m := Run(Init(), submitted);
    StepThrough(m);
    assert dropped == stored + [CancelWrite] + [DropEvent];
  }

  lemma StartsIdle()
    ensures Next(Run(Init(), []), Submit("o", "r", "q", "a", 0))
         == Init().(jobs := map["a" := Job("o", "r", "q", Queued, 0)])
  {
    assert Outstanding(map[]) == {};
  }

  lemma StepThrough(m: Machine)
    requires m == Init().(jobs := map["a" := Job("o", "r", "q", Queued, 0)])
    ensures var stored := Next(Next(Next(Next(m, Claim("a")), ConversionFails), CancelRead("o", "a")), StoreFailure);
      var dropped := Next(Next(stored, CancelWrite), DropEvent);
      && "a" in stored.jobs && stored.jobs["a"].state.Failed?
      && "a" in dropped.jobs && dropped.jobs["a"].state.Cancelling? && dropped.worker.Idle?
  {
    var claimed := Next(m, Claim("a"));
    assert claimed.worker == Converting("a") && claimed.jobs["a"].state == Running;
    assert claimed.events == map["a" := false];
    var failing := Next(claimed, ConversionFails);
    assert failing.worker == Failing("a", Failed) && failing.jobs == claimed.jobs;
    var read := Next(failing, CancelRead("o", "a"));
    assert read.canceller == Some(Canceller("a", Cancelling)) && read.jobs == claimed.jobs;
    var stored := Next(read, StoreFailure);
    assert stored.worker == Finishing("a") && stored.jobs["a"].state == Failed;
    var written := Next(stored, CancelWrite);
    assert written.jobs["a"].state == Cancelling && written.canceller == None;
  }

  // ---------- What the callers get ----------

  // A restart interrupts exactly the jobs that were queued, running or
  // cancelling, and the worker starts afresh.
  lemma RestartInterrupts(m: Machine, id: JobId)
    ensures var t := Next(m, Restart);
      && (id in t.jobs <==> id in m.jobs)
      && (id in m.jobs ==>
            t.jobs[id] == if m.jobs[id].state.Queued? || m.jobs[id].state.Running? || m.jobs[id].state.Cancelling?
                          then m.jobs[id].(state := Interrupted) else m.jobs[id])
      && t.exports == m.exports && t.worker.Idle? && t.canceller.None? && t.events == map[] && t.accepting
      && Outstanding(t.jobs) == {}
  {
  }

  // A submission is taken exactly if the owner's request id is new, the
  // service accepts jobs and fewer than eight are outstanding.
  lemma SubmissionIsTakenIff(m: Machine, owner: string, requestId: string, request: string, id: JobId, now: int)
    requires m.canceller.None? && id !in m.jobs && id !in m.exports
    ensures var t := Next(m, Submit(owner, requestId, request, id, now));
      if (forall x :: x in m.jobs ==> m.jobs[x].owner != owner || m.jobs[x].requestId != requestId)
         && m.accepting
         && |set x | x in m.jobs && (m.jobs[x].state.Queued? || m.jobs[x].state.Running?
                                     || m.jobs[x].state.Cancelling?)| < 8
      then t == m.(jobs := m.jobs[id := Job(owner, requestId, request, Queued, now)])
      else t == m
  {
    assert Outstanding(m.jobs)
        == set x | x in m.jobs && (m.jobs[x].state.Queued? || m.jobs[x].state.Running? || m.jobs[x].state.Cancelling?);
  }

  // While the service drains, no job is added.
  lemma {:induction false} DrainingAddsNothing(m: Machine, more: seq<Step>)
    requires forall i :: 0 <= i < |more| ==> !more[i].Accept? && !more[i].Restart?
    ensures var t := Run(Next(m, Accept(false)), more); t.jobs.Keys == m.jobs.Keys && !t.accepting
  {
    if more != [] {
      DrainingAddsNothing(m, more[..|more| - 1]);
      DrainingStep(Run(Next(m, Accept(false)), more[..|more| - 1]), more[|more| - 1]);
    }
  }

  lemma DrainingStep(m: Machine, step: Step)
    requires !m.accepting && !step.Accept? && !step.Restart?
    ensures Next(m, step).jobs.Keys == m.jobs.Keys && !Next(m, step).accepting
  {
    hide Known; hide Outstanding;
  }

  // A direct export has no job.
  lemma DirectExportHasNoJob(m: Machine, id: JobId)
    ensures Next(m, Accept(true)) == m.(accepting := true)
    ensures Next(m, PublishDirect(id)) == if id in m.jobs || id in m.exports then m else m.(exports := m.exports + {id})
  {
  }

  // The worker takes a queued job than which none is older.
  lemma OldestIsClaimed(m: Machine, id: JobId)
    requires m.canceller.None? && m.worker.Idle? && id in m.jobs
    ensures var t := Next(m, Claim(id));
      if m.jobs[id].state.Queued?
         && forall x :: x in m.jobs && m.jobs[x].state.Queued? ==> m.jobs[id].createdMs <= m.jobs[x].createdMs
      then t.worker == Converting(id) && t.jobs == m.jobs[id := m.jobs[id].(state := Running)]
           && id in t.events && !t.events[id]
      else t == m
  {
  }

  // A conversion that succeeds without a cancel is published and completed; one
  // that fails without a cancel leaves the job failed; either way the worker
  // is idle afterwards.
  lemma UncancelledJobEnds(steps: seq<Step>, id: JobId)
    requires var m := Run(Init(), steps);
      m.worker == Converting(id) && m.canceller.None? && !(id in m.events && m.events[id]) && id !in m.exports
    ensures var m := Run(Init(), steps);
      var done := Next(Next(Next(m, PublishJob), ReturnFromExport), DropEvent);
      var failed := Next(Next(Next(m, ConversionFails), StoreFailure), DropEvent);
      && id in m.jobs
      && done.jobs == m.jobs[id := m.jobs[id].(state := Completed)] && done.exports == m.exports + {id}
      && failed.jobs == m.jobs[id := m.jobs[id].(state := Failed)] && failed.exports == m.exports
      && done.worker.Idle? && failed.worker.Idle? && done.events == failed.events == m.events - {id}
  {
    RunKeepsInv(steps);
    InvFor(Run(Init(), steps));
    hide Next; hide Inv; hide Run;
    ConvertedIsPublished(Run(Init(), steps), id);
    FailureIsStored(Run(Init(), steps), id);
  }

  lemma ConvertedIsPublished(m: Machine, id: JobId)
    requires CompletedOk(m) && WorkerOk(m) && m.worker == Converting(id) && m.canceller.None?
    requires !(id in m.events && m.events[id]) && id !in m.exports
    ensures id in m.jobs
    ensures var t := Next(Next(Next(m, PublishJob), ReturnFromExport), DropEvent);
      t == m.(jobs := m.jobs[id := m.jobs[id].(state := Completed)], exports := m.exports + {id}, worker := Idle,
              events := m.events - {id})
  {
    var t := Next(m, PublishJob);
    assert t == m.(jobs := m.jobs[id := m.jobs[id].(state := Completed)], exports := m.exports + {id});
  }

  lemma FailureIsStored(m: Machine, id: JobId)
    requires CompletedOk(m) && WorkerOk(m) && m.worker == Converting(id) && m.canceller.None?
    requires !(id in m.events && m.events[id]) && id !in m.exports
    ensures id in m.jobs
    ensures var t := Next(Next(Next(m, ConversionFails), StoreFailure), DropEvent);
      t == m.(jobs := m.jobs[id := m.jobs[id].(state := Failed)], worker := Idle, events := m.events - {id})
  {
    var t := Next(m, ConversionFails);
    assert t == m.(worker := Failing(id, Failed));
  }

  // A cancel call does something exactly if the job is the caller's and has
  // not ended; a queued job is then cancelled, another one cancelling.
  lemma CancelMeans(m: Machine, owner: string, id: JobId)
    requires m.canceller.None?
    ensures var t := Next(Next(m, CancelRead(owner, id)), CancelWrite);
      if id in m.jobs && m.jobs[id].owner == owner
         && (m.jobs[id].state.Queued? || m.jobs[id].state.Running? || m.jobs[id].state.Cancelling?)
      then t.jobs == m.jobs[id := m.jobs[id].(state := if m.jobs[id].state.Queued? then Cancelled else Cancelling)]
           && (id in m.events ==> id in t.events && t.events[id]) && t.canceller.None?
      else t == m
  {
  }

  // The worker is still at the cancelled job, or the job is cancelled.
  predicate Ending(m: Machine, id: JobId)
  {
    && id in m.jobs && !Cancels(m, id)
    && if m.worker == Converting(id) then id in m.events && m.events[id] && m.jobs[id].state.Cancelling?
       else if m.worker.Failing? && m.worker.job == id
       then m.worker.verdict.Cancelled? && m.jobs[id].state.Cancelling?
       else m.jobs[id].state.Cancelled?
  }

  predicate CancelsAgain(step: Step, id: JobId) { step.CancelRead? && step.id == id }

  lemma EndingStep(m: Machine, step: Step, id: JobId)
    requires CompletedOk(m) && WorkerOk(m) && CancellerOk(m) && Ending(m, id)
    requires !step.Restart? && !CancelsAgain(step, id)
    ensures Ending(Next(m, step), id)
  {
    hide Known; hide Outstanding;
  }

  lemma InvFor(m: Machine)
    requires Inv(m)
    ensures CompletedOk(m) && WorkerOk(m) && CancellerOk(m)
  {
  }

  // A running job whose cancel call completed ends cancelled: as long as the
  // service is not restarted and nobody cancels it again, the worker is still
  // at it, or it is cancelled, whatever the conversion does.
  lemma {:induction false} CancelledJobEndsCancelled(steps: seq<Step>, owner: string, id: JobId, more: seq<Step>)
    requires var m := Run(Init(), steps);
      m.canceller.None? && id in m.jobs && m.jobs[id].owner == owner
      && (m.jobs[id].state.Queued? || (m.jobs[id].state.Running? && m.worker == Converting(id)))
    requires forall i :: 0 <= i < |more| ==> !more[i].Restart? && !CancelsAgain(more[i], id)
    ensures Ending(Run(Init(), steps + [CancelRead(owner, id)] + [CancelWrite] + more), id)
  {
    hide Inv;
    var read := Extend(steps, CancelRead(owner, id));
    var written := Extend(read, CancelWrite);
    if more == [] {
      RunKeepsInv(steps);
      InvFor(Run(Init(), steps));
      assert written + more == written;
    } else {
      hide Next; hide Ending;
      var before, step := more[..|more| - 1], more[|more| - 1];
      CancelledJobEndsCancelled(steps, owner, id, before);
      RunKeepsInv(written + before);
      InvFor(Run(Init(), written + before));
      EndingStep(Run(Init(), written + before), step, id);
      var longer := Extend(written + before, step);
      assert longer == written + more;
    }
  }

  lemma Extend(steps: seq<Step>, step: Step) returns (longer: seq<Step>)
    ensures longer == steps + [step] && Run(Init(), longer) == Next(Run(Init(), steps), step)
  {
    longer := steps + [step];
    assert longer[..|longer| - 1] == steps;
  }
}

module ExportService {
  import opened ExportMachine
  import opened Options

  datatype Reply = Existing(id: JobId) | Conflict | Full | Created(id: JobId)

  lemma CountedNext(all: set<JobId>, left: set<JobId>, id: JobId)
    requires id in left
    ensures |all - (left - {id})| == |all - left| + if id in all then 1 else 0
  {
    if id in all {
      assert all - (left - {id}) == (all - left) + {id};
    } else {
      assert all - (left - {id}) == all - left;
    }
  }

  // The job table, the exports table and the cancel events. The worker's and
  // the cancel calls' positions are local to their threads.
  class ExportJobs {
    var jobs: Jobs
    var exports: set<JobId>
    var cancelEvents: map<JobId, bool>
    var accepting: bool

    // Restart on the stored tables: whatever was active is interrupted.
    constructor (jobs: Jobs, exports: set<JobId>, ghost m: Machine)
      requires jobs == m.jobs && exports == m.exports
      ensures Agrees(Next(m, Restart))
    {
      this.jobs := map id | id in jobs :: if Active(jobs[id].state) then jobs[id].(state := Interrupted) else jobs[id];
      this.exports, cancelEvents, accepting := exports, map[], true;
    }

    predicate Agrees(m: Machine)
      reads this
    {
      jobs == m.jobs && exports == m.exports && cancelEvents == m.events && accepting == m.accepting
    }

    method CountOutstanding() returns (n: nat)
      ensures n == |Outstanding(jobs)|
    {
      n := 0;
      var left := jobs.Keys;
      assert Outstanding(jobs) - left == {};
      while left != {}
        invariant left <= jobs.Keys
        invariant n == |Outstanding(jobs) - left|
        decreases |left|
      {
        var id :| id in left;
        if jobs[id].state.Queued? || jobs[id].state.Running? || jobs[id].state.Cancelling? {
          n := n + 1;
        }
        CountedNext(Outstanding(jobs), left, id);
        left := left - {id};
      }
      assert Outstanding(jobs) - left == Outstanding(jobs);
    }

    // The row with this owner and request id, if any.
    method Find(owner: string, requestId: string) returns (found: Option<JobId>)
      ensures found.Some? ==> found.value in jobs && jobs[found.value].owner == owner
                              && jobs[found.value].requestId == requestId
      ensures found.None? <==> !Known(jobs, owner, requestId)
    {
      var left := jobs.Keys;
      while left != {}
        invariant left <= jobs.Keys
        invariant forall id :: id in jobs && jobs[id].owner == owner && jobs[id].requestId == requestId ==> id in left
        decreases |left|
      {
        var id :| id in left;
        if jobs[id].owner == owner && jobs[id].requestId == requestId {
          return Some(id);
        }
        left := left - {id};
      }
      found := None;
    }

    method Submit(owner: string, requestId: string, request: string, id: JobId, now: int, ghost m: Machine)
      returns (r: Reply)
      requires Agrees(m) && m.canceller.None? && id !in jobs && id !in exports
      modifies this`jobs
      ensures Agrees(Next(m, Step.Submit(owner, requestId, request, id, now)))
      ensures match r
        case Existing(x) => x in m.jobs && m.jobs[x].owner == owner && m.jobs[x].requestId == requestId
                            && m.jobs[x].request == request
        case Conflict => exists x :: x in m.jobs && m.jobs[x].owner == owner && m.jobs[x].requestId == requestId
                                     && m.jobs[x].request != request
        case Full => !Known(m.jobs, owner, requestId) && (!m.accepting || |Outstanding(m.jobs)| >= MAX_OUTSTANDING)
        case Created(x) => x == id && jobs == m.jobs[id := Job(owner, requestId, request, Queued, now)]
    {
      hide Outstanding;
      var found := Find(owner, requestId);
      if found.Some? {
        return if jobs[found.value].request != request then Conflict else Existing(found.value);
      }
      var outstanding := CountOutstanding();
      if !accepting || outstanding >= MAX_OUTSTANDING {
        return Full;
      }
      jobs := jobs[id := Job(owner, requestId, request, Queued, now)];
      r := Created(id);
    }

    // The first half of cancel: read the job and set its event. Returns the
    // state to write, if the job is active.
    method BeginCancel(owner: string, id: JobId, ghost m: Machine) returns (target: Option<State>)
      requires Agrees(m) && m.canceller.None?
      modifies this`cancelEvents
      ensures var t := Next(m, CancelRead(owner, id));
        Agrees(t) && match target
                     case Some(state) => t.canceller == Some(Canceller(id, state))
                     case None => t == m
    {
      if id !in jobs || jobs[id].owner != owner || !Active(jobs[id].state) {
        return None;
      }
      if id in cancelEvents {
        cancelEvents := cancelEvents[id := true];
      }
      target := Some(if jobs[id].state == Queued then Cancelled else Cancelling);
    }

    // The second half: the unguarded UPDATE.
    method EndCancel(id: JobId, state: State, ghost m: Machine)
      requires Agrees(m) && m.canceller == Some(Canceller(id, state)) && id in jobs
      modifies this`jobs
      ensures Agrees(Next(m, CancelWrite))
    {
      jobs := jobs[id := jobs[id].(state := state)];
    }

    // The worker takes the oldest queued job.
    method ClaimNext(ghost m: Machine) returns (claimed: Option<JobId>)
      requires Agrees(m) && m.canceller.None? && m.worker.Idle?
      modifies this`jobs, this`cancelEvents
      ensures match claimed
        case Some(id) => Oldest(m.jobs, id) && Agrees(Next(m, Claim(id)))
        case None => Agrees(m) && forall id :: id in jobs ==> !jobs[id].state.Queued?
    {
      claimed := None;
      var left := jobs.Keys;
      while left != {}
        invariant left <= jobs.Keys
        invariant claimed.Some? ==> claimed.value in jobs && jobs[claimed.value].state.Queued?
        invariant forall id :: id in jobs && id !in left && jobs[id].state.Queued? ==>
                    claimed.Some? && jobs[claimed.value].createdMs <= jobs[id].createdMs
        decreases |left|
      {
        var id :| id in left;
        left := left - {id};
        if jobs[id].state == Queued && (claimed.None? || jobs[id].createdMs < jobs[claimed.value].createdMs) {
          claimed := Some(id);
        }
      }
      if claimed.Some? {
        cancelEvents := cancelEvents[claimed.value := false];
        jobs := jobs[claimed.value := jobs[claimed.value].(state := Running)];
      }
    }

    // The publication transaction; false means the export was cancelled.
    method Publish(id: JobId, ghost m: Machine) returns (published: bool)
      requires Agrees(m) && WorkerOk(m) && m.worker == Converting(id) && m.canceller.None? && id !in exports
      modifies this`jobs, this`exports
      ensures Agrees(Next(m, PublishJob))
      ensures published <==> !m.events[id]
    {
      if cancelEvents[id] {
        return false;
      }
      exports := exports + {id};
      jobs := jobs[id := jobs[id].(state := Completed)];
      published := true;
    }

    // The worker's except branch: UPDATE ... AND state!='completed'.
    method StoreVerdict(id: JobId, verdict: State, ghost m: Machine)
      requires Agrees(m) && m.worker == Failing(id, verdict)
      modifies this`jobs
      ensures Agrees(Next(m, StoreFailure))
    {
      if id in jobs && jobs[id].state != Completed {
        jobs := jobs[id := jobs[id].(state := verdict)];
      }
    }

    method ForgetEvent(id: JobId, ghost m: Machine)
      requires Agrees(m) && m.worker == Finishing(id) && m.canceller.None?
      modifies this`cancelEvents
      ensures Agrees(Next(m, DropEvent))
    {
      cancelEvents := cancelEvents - {id};
    }
  }
}
