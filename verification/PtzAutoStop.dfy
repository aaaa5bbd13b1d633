// The automatic stop behind every continuous PTZ movement
// (camera/camera_registry.py, schedule_ptz_stop, scheduled_ptz_stop,
// _onvif_ptz_stop and _onvif_ptz_command). One camera; PtzSession shows that
// at most one thread is inside its session.

module AutoStop {
  import opened Options

  type TimerId = nat

  // How a request to the camera ends: accepted, refused with one of the
  // exceptions the code handles, or with one it does not (http.client raises
  // such exceptions for malformed responses; a movement whose audit fails
  // after it was accepted leaves the same way).
  datatype Outcome = Accepted | Refused | Escaped

  // A timer from creation to the end of its callback. An unstarted one was
  // registered, but there was no thread to run it.
  datatype Timer =
    | Created
    | Unstarted
    | Waiting(due: int)
    | Cancelled
    | Fired
    | Busy
    | Failed
    | Wrapping
    | Done

  // Who is inside the camera's session, and how far.
  datatype MovePhase = Ready | Registered(own: TimerId) | InFlight(own: TimerId) | Late | Rescheduled(own: TimerId)
  datatype StopPhase = Sending | Popping
  datatype CallbackPhase = Checking | SendingStop | PoppingSelf
  datatype Session =
    | Free
    | Moving(continuous: bool, duration: nat, dispatchedAt: int, phase: MovePhase)
    | Stopping(stop: StopPhase)
    | AutoStopping(timer: TimerId, callback: CallbackPhase)

  // `slot` is the camera's entry in PTZ_STOP_TIMERS. History: `owed` says a
  // continuous movement was dispatched and neither a Stop nor a later other
  // movement has succeeded since; `failed` says the auto-stop registered
  // last was recorded as failed.
  datatype World = World(now: int, session: Session, slot: Option<TimerId>, timers: seq<Timer>, owed: bool,
                         failed: bool)

  datatype Step =
    | Tick(now: int)
    | BeginMove(continuous: bool, duration: nat)
    | Register
    | Dispatch
    | Acknowledge(outcome: Outcome)
    | RegisterAgain
    | StartAgain
    | StartFails
    | BeginStop
    | StopAnswer(outcome: Outcome)
    | PopAfterStop
    | Fire(timer: TimerId)
    | EnterSession(timer: TimerId)
    | SessionBusy(timer: TimerId)
    | CheckRegistered
    | AutoStopAnswer(outcome: Outcome)
    | PopSelf
    | RecordFailure(timer: TimerId)
    | AuditFails(timer: TimerId)
    | Finally(timer: TimerId)

  function Init(): World { World(0, Free, None, [], false, false) }

  // Only some timers' states differ.
  predicate OnlyTimers(w: World, v: World)
  {
    v == w.(timers := v.timers) && |v.timers| == |w.timers|
  }

  function Set(w: World, t: TimerId, timer: Timer): (v: World)
    ensures OnlyTimers(w, v)
  {
    if t < |w.timers| then w.(timers := w.timers[t := timer]) else w
  }

  // Timer.cancel has an effect only before the timer has fired.
  function Cancel(w: World, slot: Option<TimerId>): (v: World)
    ensures OnlyTimers(w, v)
  {
    if slot.Some? && slot.value < |w.timers| && (w.timers[slot.value].Created? || w.timers[slot.value].Waiting?)
    then Set(w, slot.value, Cancelled) else w
  }

  // Under PTZ_RATE_LOCK: replace the registered timer by a new one.
  function Replaced(w: World): World
  {
    var c := Cancel(w, w.slot);
    c.(slot := Some(|c.timers|), timers := c.timers + [Created], failed := false)
  }

  function Cleared(w: World): World { Cancel(w, w.slot).(slot := None) }

  function Started(w: World, t: TimerId, delay: nat): (v: World)
    ensures OnlyTimers(w, v)
  {
    if t < |w.timers| && w.timers[t].Created? then Set(w, t, Waiting(w.now + delay)) else w
  }

  function Unstartable(w: World, t: TimerId): (v: World)
    ensures OnlyTimers(w, v)
  {
    if t < |w.timers| && w.timers[t].Created? then Set(w, t, Unstarted) else w
  }

  function TimerAt(w: World, t: TimerId): Timer
  {
    if t < |w.timers| then w.timers[t] else Done
  }

  function Acknowledged(w: World, outcome: Outcome): World
    requires w.session.Moving? && w.session.phase.InFlight?
  {
    var m := w.session;
    if !m.continuous then
      if outcome.Accepted? then Cleared(w).(session := Free, owed := false) else w.(session := Free)
    else
      match outcome
      case Accepted =>
        if w.now - m.dispatchedAt >= m.duration then w.(session := m.(phase := Late)) else w.(session := Free)
      case Refused => w.(session := m.(phase := Late))
      case Escaped => w.(session := Free)
  }

  function AutoStopAnswered(w: World, outcome: Outcome): World
    requires w.session.AutoStopping?
  {
    var t := w.session.timer;
    match outcome
    case Accepted => w.(session := AutoStopping(t, PoppingSelf), owed := false)
    case Refused => Set(w.(session := Free), t, Failed)
    case Escaped => Set(w.(session := Free), t, Wrapping)
  }

  function Next(w: World, step: Step): World
  {
    match step
    case Tick(now) => if now < w.now then w else w.(now := now)
    case BeginMove(continuous, duration) =>
      if !w.session.Free? then w else w.(session := Moving(continuous, duration, w.now, Ready))
    case Register =>
      if !w.session.Moving? || !w.session.continuous || !w.session.phase.Ready? then w
      else
        var r := Replaced(w);
        r.(session := w.session.(dispatchedAt := w.now, phase := Registered(|w.timers|)))
    case Dispatch =>
      if !w.session.Moving? then w
      else if !w.session.continuous && w.session.phase.Ready? then w.(session := w.session.(phase := InFlight(0)))
      else if !w.session.phase.Registered? then w
      else
        var own := w.session.phase.own;
        Started(w, own, w.session.duration).(session := w.session.(phase := InFlight(own)), owed := true)
    case Acknowledge(outcome) =>
      if !w.session.Moving? || !w.session.phase.InFlight? then w else Acknowledged(w, outcome)
    case RegisterAgain =>
      if !w.session.Moving? || !w.session.phase.Late? then w
      else Replaced(w).(session := w.session.(phase := Rescheduled(|w.timers|)))
    case StartAgain =>
      if !w.session.Moving? || !w.session.phase.Rescheduled? then w
      else Started(w, w.session.phase.own, 0).(session := Free)
    case StartFails =>
      if w.session.Moving? && (w.session.phase.Registered? || w.session.phase.Rescheduled?)
      then Unstartable(w, w.session.phase.own).(session := Free) else w
    case BeginStop => if !w.session.Free? then w else w.(session := Stopping(Sending))
    case StopAnswer(outcome) =>
      if w.session != Stopping(Sending) then w
      else if outcome.Accepted? then w.(session := Stopping(Popping), owed := false) else w.(session := Free)
    case PopAfterStop => if w.session != Stopping(Popping) then w else Cleared(w).(session := Free)
    case Fire(t) => if TimerAt(w, t).Waiting? && TimerAt(w, t).due <= w.now then Set(w, t, Fired) else w
    case EnterSession(t) =>
      if !w.session.Free? || !TimerAt(w, t).Fired? then w
      else Set(w.(session := AutoStopping(t, Checking)), t, Busy)
    case SessionBusy(t) => if !TimerAt(w, t).Fired? then w else Set(w, t, Failed)
    case CheckRegistered =>
      if !w.session.AutoStopping? || !w.session.callback.Checking? then w
      else if w.slot != Some(w.session.timer) then Set(w.(session := Free), w.session.timer, Wrapping)
      else w.(session := AutoStopping(w.session.timer, SendingStop))
    case AutoStopAnswer(outcome) =>
      if !w.session.AutoStopping? || !w.session.callback.SendingStop? then w else AutoStopAnswered(w, outcome)
    case PopSelf =>
      if !w.session.AutoStopping? || !w.session.callback.PoppingSelf? then w
      else Set(w.(session := Free, slot := None), w.session.timer, Wrapping)
    case RecordFailure(t) =>
      if !TimerAt(w, t).Failed? then w else Set(w.(failed := w.failed || w.slot == Some(t)), t, Wrapping)
    case AuditFails(t) => if !TimerAt(w, t).Failed? then w else Set(w, t, Wrapping)
    case Finally(t) =>
      if !TimerAt(w, t).Wrapping? then w
      else Set(w.(slot := if w.slot == Some(t) then None else w.slot), t, Done)
  }

  function Run(w: World, steps: seq<Step>): World
  {
    if steps == [] then w else Next(Run(w, steps[..|steps| - 1]), steps[|steps| - 1])
  }

  // ---------- What must hold ----------

  // A timer that will still bring the camera to a stop or record a failure.
  predicate Live(t: Timer) { t.Created? || t.Waiting? || t.Fired? || t.Busy? || t.Failed? }

  // While a stop is owed, the registered timer is live, or its failure is
  // on record.
  predicate Guarded(w: World)
  {
    w.owed ==> w.failed || (w.slot.Some? && Live(TimerAt(w, w.slot.value)))
  }

  // Structure: the slot names an existing timer; a callback in the session is
  // busy, and the only busy one; a sending callback is the registered one;
  // the timer of a movement is the newest.
  predicate SlotOk(w: World) { w.slot.Some? ==> w.slot.value < |w.timers| && !w.timers[w.slot.value].Cancelled? }

  predicate BusyOk(w: World)
  {
    forall t :: 0 <= t < |w.timers| && w.timers[t].Busy? ==> w.session.AutoStopping? && w.session.timer == t
  }

  predicate CallbackOk(w: World)
  {
    w.session.AutoStopping? ==>
      TimerAt(w, w.session.timer).Busy? && (!w.session.callback.Checking? ==> w.slot == Some(w.session.timer))
  }

  // A created timer belongs to the movement that is about to start it.
  predicate CreatedOk(w: World)
  {
    forall t :: 0 <= t < |w.timers| && w.timers[t].Created? ==>
      w.session.Moving? && (w.session.phase == Registered(t) || w.session.phase == Rescheduled(t))
  }

  // The timer of a dispatched movement is armed for the full duration, or
  // that duration has passed.
  predicate PhaseOk(w: World)
  {
    w.session.Moving? ==>
      && w.session.dispatchedAt <= w.now
      && match w.session.phase
         case Ready => true
         case Registered(own) => w.session.continuous && w.slot == Some(own) && TimerAt(w, own).Created?
         case InFlight(own) => w.session.continuous ==> Armed(w, own, w.session.dispatchedAt + w.session.duration)
         case Late => w.session.continuous
         case Rescheduled(own) => w.session.continuous && w.slot == Some(own) && TimerAt(w, own).Created?
  }

  predicate Armed(w: World, own: TimerId, until: int)
  {
    && (w.slot.Some? ==> w.slot == Some(own))
    && (w.now >= until || (w.slot == Some(own) && TimerAt(w, own).Waiting? && TimerAt(w, own).due >= until))
  }

  // Popping happens once the debt is paid.
  predicate PopOk(w: World)
  {
    (w.session == Stopping(Popping) || (w.session.AutoStopping? && w.session.callback.PoppingSelf?)) ==> !w.owed
  }

  predicate Inv(w: World) { SlotOk(w) && BusyOk(w) && CallbackOk(w) && CreatedOk(w) && PhaseOk(w) && PopOk(w) }

  lemma KeepsSlot(w: World, step: Step)
    requires SlotOk(w) && PhaseOk(w)
    ensures SlotOk(Next(w, step))
  {
    hide Cancel;
    if w.slot.Some? && Next(w, step).slot == w.slot {
      CancelAt(w, w.slot, w.slot.value);
    }
  }

  lemma CancelAt(w: World, slot: Option<TimerId>, t: TimerId)
    ensures TimerAt(Cancel(w, slot), t) == TimerAt(w, t) || (slot == Some(t) && TimerAt(Cancel(w, slot), t).Cancelled?)
  {
  }

  lemma BusyBefore(w: World, step: Step, t: TimerId)
    requires TimerAt(Next(w, step), t).Busy?
    ensures t < |w.timers| && (w.timers[t].Busy? || (step == EnterSession(t) && w.session.Free?))
  {
    hide Cancel;
    CancelAt(w, w.slot, t);
  }

  // A busy callback leaves the session only by ending.
  lemma StillBusy(w: World, step: Step, t: TimerId)
    requires w.session.AutoStopping? && w.session.timer == t && t < |w.timers| && w.timers[t].Busy?
    requires TimerAt(Next(w, step), t).Busy?
    ensures Next(w, step).session.AutoStopping? && Next(w, step).session.timer == t
  {
    hide Cancel;
  }

  lemma KeepsBusy(w: World, step: Step)
    requires BusyOk(w)
    ensures BusyOk(Next(w, step))
  {
    var v := Next(w, step);
    forall t | 0 <= t < |v.timers| && v.timers[t].Busy? ensures v.session.AutoStopping? && v.session.timer == t {
      BusyBefore(w, step, t);
      if w.timers[t].Busy? {
        hide Next;
        StillBusy(w, step, t);
      }
    }
  }

  lemma KeepsCallback(w: World, step: Step)
    requires CallbackOk(w)
    ensures CallbackOk(Next(w, step))
  {
  }

  lemma KeepsPop(w: World, step: Step)
    requires PopOk(w)
    ensures PopOk(Next(w, step))
  {
  }

  // Timers are created by a registration only.
  lemma CreatedBefore(w: World, step: Step, t: TimerId)
    requires t < |w.timers| && TimerAt(Next(w, step), t).Created?
    ensures w.timers[t].Created?
  {
    hide Cancel;
    CancelAt(w, w.slot, t);
  }

  lemma NewTimer(w: World, step: Step, t: TimerId)
    requires |w.timers| <= t < |Next(w, step).timers|
    ensures var m := Next(w, step).session; m.Moving? && (m.phase == Registered(t) || m.phase == Rescheduled(t))
  {
    hide Started; hide Unstartable; hide Set; hide Cancel;
  }

  // What does not start a movement's timer leaves the movement waiting.
  lemma StillToStart(w: World, step: Step, t: TimerId)
    requires t < |w.timers| && w.timers[t].Created? && TimerAt(Next(w, step), t).Created?
    requires w.session.Moving? && (w.session.phase == Registered(t) || w.session.phase == Rescheduled(t))
    ensures Next(w, step).session == w.session
  {
    hide Cancel;
  }

  lemma KeepsCreated(w: World, step: Step)
    requires CreatedOk(w)
    ensures CreatedOk(Next(w, step))
  {
    hide Next;
    var v := Next(w, step);
    forall t | 0 <= t < |v.timers| && v.timers[t].Created?
      ensures v.session.Moving? && (v.session.phase == Registered(t) || v.session.phase == Rescheduled(t))
    {
      if t < |w.timers| {
        CreatedBefore(w, step, t);
        StillToStart(w, step, t);
      } else {
        NewTimer(w, step, t);
      }
    }
  }

  predicate OfMovement(step: Step)
  {
    step.BeginMove? || step.Register? || step.Dispatch? || step.Acknowledge? || step.RegisterAgain? || step.StartAgain?
    || step.StartFails?
  }

  lemma MovementKeepsPhase(w: World, step: Step)
    requires PhaseOk(w) && OfMovement(step)
    ensures PhaseOk(Next(w, step))
  {
    hide Cancel;
  }

  lemma OthersKeepPhase(w: World, step: Step)
    requires PhaseOk(w) && SlotOk(w) && !OfMovement(step)
    ensures PhaseOk(Next(w, step))
  {
    hide Cancel;
  }

  lemma KeepsPhase(w: World, step: Step)
    requires PhaseOk(w) && SlotOk(w)
    ensures PhaseOk(Next(w, step))
  {
    hide Next; hide PhaseOk; hide SlotOk;
    if OfMovement(step) {
      MovementKeepsPhase(w, step);
    } else {
      OthersKeepPhase(w, step);
    }
  }

  lemma StepKeepsInv(w: World, step: Step)
    requires Inv(w)
    ensures Inv(Next(w, step))
  {
    hide Next; hide SlotOk; hide BusyOk; hide CallbackOk; hide CreatedOk; hide PhaseOk; hide PopOk;
    KeepsSlot(w, step);
    KeepsBusy(w, step);
    KeepsCallback(w, step);
    KeepsCreated(w, step);
    KeepsPhase(w, step);
    KeepsPop(w, step);
  }

  // The steps that lose the guard of an owed stop: the registered automatic
  // Stop ends in an exception its callback does not handle; its failure
  // cannot be recorded; or the timer that just replaced the registered one
  // cannot be started.
  predicate LosesGuard(w: World, step: Step)
  {
    && w.owed && !w.failed
    && match step
       case AutoStopAnswer(outcome) =>
         outcome.Escaped? && w.session.AutoStopping? && w.session.callback.SendingStop?
       case AuditFails(t) => w.slot == Some(t) && TimerAt(w, t).Failed?
       case StartFails => w.session.Moving? && (w.session.phase.Registered? || w.session.phase.Rescheduled?)
       case _ => false
  }

  // The exact condition: these and no other steps lose the guard.
  lemma GuardLostExactly(w: World, step: Step)
    requires Inv(w) && Guarded(w)
    ensures Guarded(Next(w, step)) <==> !LosesGuard(w, step)
  {
  }

  lemma {:induction false} RunKeepsInv(steps: seq<Step>)
    ensures Inv(Run(Init(), steps))
  {
    if steps != [] {
      RunKeepsInv(steps[..|steps| - 1]);
      StepKeepsInv(Run(Init(), steps[..|steps| - 1]), steps[|steps| - 1]);
    }
  }

  // ---------- Over all runs ----------

  // Along every run without such a step, a dispatched continuous movement is
  // guarded: by a live registered timer, or by the recorded failure of the
  // last one.
  lemma {:induction false} MovementIsGuarded(steps: seq<Step>)
    requires forall i :: 0 <= i < |steps| ==> !LosesGuard(Run(Init(), steps[..i]), steps[i])
    ensures Guarded(Run(Init(), steps))
  {
    if steps != [] {
      var before := steps[..|steps| - 1];
      forall i | 0 <= i < |before| ensures !LosesGuard(Run(Init(), before[..i]), before[i]) {
        assert before[..i] == steps[..i];
      }
      MovementIsGuarded(before);
      RunKeepsInv(before);
      GuardLostExactly(Run(Init(), before), steps[|steps| - 1]);
    }
  }

  // When the camera accepted or refused a continuous movement, its stop timer
  // is armed and registered, however long the camera took to answer, provided
  // that a second timer, where one is needed, can be started.
  lemma ReturnedMovementIsArmed(steps: seq<Step>, outcome: Outcome)
    requires var w := Run(Init(), steps); w.session.Moving? && w.session.continuous && w.session.phase.InFlight?
    requires !outcome.Escaped?
    ensures var w := Next(Run(Init(), steps), Acknowledge(outcome));
      var v := if w.session.Free? then w else Next(Next(w, RegisterAgain), StartAgain);
      && v.session.Free? && v.slot.Some?
      && var m := Run(Init(), steps).session;
      var end := m.dispatchedAt + m.duration;
      TimerAt(v, v.slot.value).Waiting?
      && if outcome.Accepted? && v.now < end then TimerAt(v, v.slot.value).due >= end
         else TimerAt(v, v.slot.value).due == v.now
  {
    hide SlotOk; hide BusyOk; hide CallbackOk; hide CreatedOk; hide PopOk; hide Run;
    RunKeepsInv(steps);
    var w := Next(Run(Init(), steps), Acknowledge(outcome));
    if w.session.Moving? {
      var r := Next(w, RegisterAgain);
      assert r.session.phase == Rescheduled(|w.timers|) && r.timers[|w.timers|].Created?;
    }
  }

  // A timer that exists and is not registered is never registered again.
  lemma ReplacedStaysReplaced(w: World, step: Step, t: TimerId)
    requires Inv(w) && t < |w.timers| && w.slot != Some(t)
    ensures t < |Next(w, step).timers| && Next(w, step).slot != Some(t)
  {
    hide Set; hide Cancel; hide Started; hide SlotOk; hide BusyOk; hide CallbackOk; hide CreatedOk; hide PhaseOk;
    hide PopOk;
  }

  // A timer that a newer one replaced is never registered again, ...
  lemma {:induction false} ReplacedForEver(steps: seq<Step>, more: seq<Step>, t: TimerId)
    requires var w := Run(Init(), steps); t < |w.timers| && w.slot != Some(t)
    ensures var v := Run(Init(), steps + more); t < |v.timers| && v.slot != Some(t)
  {
    hide Next; hide Inv;
    if more == [] {
      assert steps + more == steps;
    } else {
      var before, step := more[..|more| - 1], more[|more| - 1];
      ReplacedForEver(steps, before, t);
      RunKeepsInv(steps + before);
      ReplacedStaysReplaced(Run(Init(), steps + before), step, t);
      assert steps + more == steps + before + [step];
      var longer := Extend(steps + before, step);
    }
  }

  // ... and so it never sends Stop.
  lemma ReplacedNeverSends(steps: seq<Step>, more: seq<Step>, t: TimerId)
    requires var w := Run(Init(), steps); t < |w.timers| && w.slot != Some(t)
    ensures Run(Init(), steps + more).session != AutoStopping(t, SendingStop)
  {
    hide Run; hide SlotOk; hide BusyOk; hide CreatedOk; hide PhaseOk; hide PopOk;
    ReplacedForEver(steps, more, t);
    RunKeepsInv(steps + more);
  }

  lemma Extend(steps: seq<Step>, step: Step) returns (longer: seq<Step>)
    ensures longer == steps + [step] && Run(Init(), longer) == Next(Run(Init(), steps), step)
  {
    longer := steps + [step];
    assert longer[..|longer| - 1] == steps;
  }

  // ---------- What arms and what disarms ----------

  // A movement registers a new timer, after which the one it replaced never
  // fires and no older failure counts, ...
  lemma RegistrationReplaces(w: World, step: Step)
    requires SlotOk(w) && w.session.Moving? && w.session.continuous
    requires (step.Register? && w.session.phase.Ready?) || (step.RegisterAgain? && w.session.phase.Late?)
    ensures var v := Next(w, step); var own := |w.timers|;
      && v.slot == Some(own) && TimerAt(v, own).Created? && !v.failed
      && v.session.Moving? && (v.session.phase == Registered(own) || v.session.phase == Rescheduled(own))
      && (w.slot.Some? && (TimerAt(w, w.slot.value).Waiting? || TimerAt(w, w.slot.value).Created?) ==>
            TimerAt(v, w.slot.value).Cancelled?)
  {
  }

  // ... and starts it: due when the movement's time is over, or at once when
  // the answer was late or doubtful.
  lemma StartingArms(w: World, step: Step)
    requires SlotOk(w) && PhaseOk(w) && w.session.Moving? && w.session.continuous
    requires (step.Dispatch? && w.session.phase.Registered?) || (step.StartAgain? && w.session.phase.Rescheduled?)
    ensures var v := Next(w, step); var own := w.session.phase.own;
      && v.slot == Some(own)
      && TimerAt(v, own) == Waiting(if step.Dispatch? then w.now + w.session.duration else w.now)
      && (if step.Dispatch? then v.owed && v.session == w.session.(phase := InFlight(own)) else v.session.Free?)
  {
  }

  // A timer fires when it is due and not before; then its callback sends the
  // Stop, and if the camera takes it nothing is owed and nothing registered.
  lemma DueTimerStops(w: World, t: TimerId)
    requires w.session.Free? && w.slot == Some(t) && TimerAt(w, t).Waiting?
    ensures w.now < TimerAt(w, t).due ==> Next(w, Fire(t)) == w
    ensures var s := Next(Next(Next(w, Fire(t)), EnterSession(t)), CheckRegistered);
      var v := Next(Next(Next(s, AutoStopAnswer(Accepted)), PopSelf), Finally(t));
      w.now >= TimerAt(w, t).due ==>
        && s.session == AutoStopping(t, SendingStop)
        && v.session.Free? && !v.owed && v.slot == None && TimerAt(v, t).Done?
  {
  }

  // A cancelled timer never fires.
  lemma {:induction false} CancelledNeverFires(steps: seq<Step>, more: seq<Step>, t: TimerId)
    requires TimerAt(Run(Init(), steps), t).Cancelled?
    ensures TimerAt(Run(Init(), steps + more), t).Cancelled?
  {
    if more == [] {
      assert steps + more == steps;
    } else {
      hide Next; hide Inv;
      var before, step := more[..|more| - 1], more[|more| - 1];
      CancelledNeverFires(steps, before, t);
      RunKeepsInv(steps + before);
      CancelledStays(Run(Init(), steps + before), step, t);
      assert steps + more == steps + before + [step];
      var longer := Extend(steps + before, step);
    }
  }

  lemma CancelledStays(w: World, step: Step, t: TimerId)
    requires Inv(w) && TimerAt(w, t).Cancelled?
    ensures TimerAt(Next(w, step), t).Cancelled?
  {
    hide Cancel; hide PhaseOk; hide CreatedOk; hide SlotOk; hide BusyOk; hide PopOk;
    CancelAt(w, w.slot, t);
  }

  // A stop is owed from the dispatch of a continuous movement until the camera
  // takes a Stop or a movement of another kind, and by nothing else.
  lemma DebtChangesExactly(w: World, step: Step)
    ensures !w.owed ==> (Next(w, step).owed <==>
      step.Dispatch? && w.session.Moving? && w.session.phase.Registered?)
    ensures w.owed ==> (!Next(w, step).owed <==>
      match step
      case Acknowledge(outcome) =>
        outcome.Accepted? && w.session.Moving? && !w.session.continuous && w.session.phase.InFlight?
      case StopAnswer(outcome) => outcome.Accepted? && w.session == Stopping(Sending)
      case AutoStopAnswer(outcome) =>
        outcome.Accepted? && w.session.AutoStopping? && w.session.callback.SendingStop?
      case _ => false)
  {
  }

  // A failure is on record exactly if the registered timer's was recorded, and
  // until the next registration.
  lemma FailureIsRecordedExactly(w: World, step: Step)
    ensures !w.failed ==> (Next(w, step).failed <==>
      step.RecordFailure? && w.slot == Some(step.timer) && TimerAt(w, step.timer).Failed?)
    ensures w.failed ==> (!Next(w, step).failed <==>
      w.session.Moving? && ((step.Register? && w.session.continuous && w.session.phase.Ready?)
                            || (step.RegisterAgain? && w.session.phase.Late?)))
  {
  }

  // The steps that take the timer of an earlier movement out of the way.
  predicate Disarms(w: World, step: Step)
  {
    match step
    case Acknowledge(outcome) =>
      outcome.Accepted? && w.session.Moving? && !w.session.continuous && w.session.phase.InFlight?
    case PopAfterStop => w.session == Stopping(Popping)
    case PopSelf => w.session.AutoStopping? && w.session.callback.PoppingSelf?
    case _ => false
  }

  lemma DisarmsNow(w: World, step: Step)
    requires Disarms(w, step) && PopOk(w)
    ensures var v := Next(w, step);
      && v.session.Free? && v.slot == None && !v.owed && |v.timers| == |w.timers|
      && (w.slot.Some? && TimerAt(w, w.slot.value).Waiting? ==> TimerAt(v, w.slot.value).Cancelled? || step.PopSelf?)
  {
  }

  // After an accepted movement of another kind, a successful Stop and a
  // successful automatic Stop nothing is registered and nothing owed, and no
  // timer from before sends a Stop in any continuation: an old timer does not
  // cut a later movement short.
  lemma NothingOldStops(steps: seq<Step>, step: Step, more: seq<Step>, t: TimerId)
    requires var w := Run(Init(), steps); Disarms(w, step) && t < |w.timers|
    ensures var v := Run(Init(), steps + [step]); v.session.Free? && v.slot == None && !v.owed
    ensures Run(Init(), steps + [step] + more).session != AutoStopping(t, SendingStop)
  {
    hide Next; hide Disarms; hide Run;
    RunKeepsInv(steps);
    InvPops(Run(Init(), steps));
    DisarmsNow(Run(Init(), steps), step);
    var longer := Extend(steps, step);
    ReplacedNeverSends(steps + [step], more, t);
  }

  lemma InvPops(w: World)
    requires Inv(w)
    ensures PopOk(w)
  {
  }

  // ---------- The guard can be lost ----------

  // A stop is owed, its failure is not on record, nobody is in the session,
  // and no timer will do anything more.
  predicate Abandoned(w: World)
  {
    w.owed && !w.failed && w.session.Free? && forall t :: 0 <= t < |w.timers| ==> !Live(w.timers[t])
  }

  // Then no stop is sent until somebody gives a new command.
  lemma {:induction false} AbandonedForEver(w: World, more: seq<Step>)
    requires Abandoned(w) && forall i :: 0 <= i < |more| ==> !more[i].BeginMove? && !more[i].BeginStop?
    ensures Abandoned(Run(w, more))
  {
    if more != [] {
      hide Next; hide Abandoned;
      AbandonedForEver(w, more[..|more| - 1]);
      AbandonedStays(Run(w, more[..|more| - 1]), more[|more| - 1]);
    }
  }

  lemma AbandonedStays(w: World, step: Step)
    requires Abandoned(w) && !step.BeginMove? && !step.BeginStop?
    ensures Abandoned(Next(w, step))
  {
    var v := Next(w, step);
    assert |v.timers| == |w.timers|;
    forall t | 0 <= t < |v.timers| ensures !Live(v.timers[t]) {
      assert !Live(w.timers[t]);
    }
  }

  // A movement that was accepted and whose timer has fired and is registered.
  lemma MovementFires() returns (steps: seq<Step>)
    ensures Run(Init(), steps) == World(100, AutoStopping(0, SendingStop), Some(0), [Busy], true, false)
  {
    hide Run; hide Next;
    steps := MovementDispatched();
    steps := Extend(steps, Acknowledge(Accepted));
    steps := Extend(steps, Tick(100));
    steps := Extend(steps, Fire(0));
    steps := Extend(steps, EnterSession(0));
    steps := Extend(steps, CheckRegistered);
    TimerFires(World(0, Moving(true, 100, 0, InFlight(0)), Some(0), [Waiting(100)], true, false));
  }

  lemma TimerFires(w: World)
    requires w == World(0, Moving(true, 100, 0, InFlight(0)), Some(0), [Waiting(100)], true, false)
    ensures Next(Next(Next(Next(Next(w, Acknowledge(Accepted)), Tick(100)), Fire(0)), EnterSession(0)), CheckRegistered)
         == World(100, AutoStopping(0, SendingStop), Some(0), [Busy], true, false)
  {
    var a := Next(Next(Next(w, Acknowledge(Accepted)), Tick(100)), Fire(0));
    assert a == World(100, Free, Some(0), [Fired], true, false);
  }

  lemma MovementDispatched() returns (steps: seq<Step>)
    ensures Run(Init(), steps) == World(0, Moving(true, 100, 0, InFlight(0)), Some(0), [Waiting(100)], true, false)
  {
    hide Run; hide Next;
    steps := Extend([], BeginMove(true, 100));
    steps := Extend(steps, Register);
    steps := Extend(steps, Dispatch);
    MovementRuns(Run(Init(), []));
    RunNothing();
  }

  lemma RunNothing()
    ensures Run(Init(), []) == Init()
  {
  }

  lemma MovementRuns(w: World)
    requires w == Run(Init(), [])
    ensures Next(Next(Next(w, BeginMove(true, 100)), Register), Dispatch)
         == World(0, Moving(true, 100, 0, InFlight(0)), Some(0), [Waiting(100)], true, false)
  {
    var a := Next(w, BeginMove(true, 100));
    assert a == World(0, Moving(true, 100, 0, Ready), None, [], false, false);
    assert Next(a, Register) == World(0, Moving(true, 100, 0, Registered(0)), Some(0), [Created], false, false);
  }

  // The Stop of the fired timer ends in an exception the callback does not
  // handle.
  lemma EscapedStopLeavesMovement()
    ensures exists steps :: Abandoned(Run(Init(), steps)) && Run(Init(), steps).slot == None
  {
    hide Run; hide Next;
    var fired := MovementFires();
    var s := Extend(fired, AutoStopAnswer(Escaped));
    s := Extend(s, Finally(0));
    StopEscapes(Run(Init(), fired));
  }

  lemma StopEscapes(w: World)
    requires w == World(100, AutoStopping(0, SendingStop), Some(0), [Busy], true, false)
    ensures Next(Next(w, AutoStopAnswer(Escaped)), Finally(0)) == World(100, Free, None, [Done], true, false)
  {
    assert Next(w, AutoStopAnswer(Escaped)) == World(100, Free, Some(0), [Wrapping], true, false);
  }

  // The Stop fails as expected, and recording the failure fails.
  lemma FailedAuditLeavesMovement()
    ensures exists steps :: Abandoned(Run(Init(), steps)) && Run(Init(), steps).slot == None
  {
    hide Run; hide Next;
    var fired := MovementFires();
    var s := Extend(fired, AutoStopAnswer(Refused));
    s := Extend(s, AuditFails(0));
    s := Extend(s, Finally(0));
    AuditRaises(Run(Init(), fired));
  }

  lemma AuditRaises(w: World)
    requires w == World(100, AutoStopping(0, SendingStop), Some(0), [Busy], true, false)
    ensures Next(Next(Next(w, AutoStopAnswer(Refused)), AuditFails(0)), Finally(0))
         == World(100, Free, None, [Done], true, false)
  {
    assert Next(w, AutoStopAnswer(Refused)) == World(100, Free, Some(0), [Failed], true, false);
    assert Next(Next(w, AutoStopAnswer(Refused)), AuditFails(0)) == World(100, Free, Some(0), [Wrapping], true, false);
  }

  // The camera refuses the movement, and the timer that replaces the armed one
  // cannot be started.
  lemma FailedStartLeavesMovement()
    ensures exists steps :: Abandoned(Run(Init(), steps)) && Run(Init(), steps).slot == Some(1)
  {
    hide Run; hide Next;
    var dispatched := MovementDispatched();
    var s := Extend(dispatched, Acknowledge(Refused));
    s := Extend(s, RegisterAgain);
    s := Extend(s, StartFails);
    StartRaises(Run(Init(), dispatched));
  }

  lemma StartRaises(w: World)
    requires w == World(0, Moving(true, 100, 0, InFlight(0)), Some(0), [Waiting(100)], true, false)
    ensures Next(Next(Next(w, Acknowledge(Refused)), RegisterAgain), StartFails)
         == World(0, Free, Some(1), [Cancelled, Unstarted], true, false)
  {
    var a := Next(Next(w, Acknowledge(Refused)), RegisterAgain);
    assert a == World(0, Moving(true, 100, 0, Rescheduled(1)), Some(1), [Cancelled, Created], true, false);
  }
}

module StopTimers {
  import opened AutoStop
  import opened Options

  // One camera's PTZ_STOP_TIMERS entry and the timers behind it. Each method
  // is one block under PTZ_RATE_LOCK or one call on a timer; the session and
  // the outcome of requests belong to the calling threads.
  class TimerTable {
    var slot: Option<TimerId>
    var timers: seq<Timer>

    constructor ()
      ensures Agrees(Init())
    {
      slot, timers := None, [];
    }

    predicate Agrees(w: World)
      reads this
    {
      slot == w.slot && timers == w.timers
    }

    method CancelPrevious(previous: Option<TimerId>, ghost w: World)
      requires Agrees(w)
      modifies this`timers
      ensures Agrees(Cancel(w, previous))
    {
      if previous.Some? && previous.value < |timers| {
        var t := timers[previous.value];
        if t.Created? || t.Waiting? {
          timers := timers[previous.value := Cancelled];
        }
      }
    }

    // schedule_ptz_stop up to the end of its locked block.
    method Schedule(ghost w: World) returns (timer: TimerId)
      requires Agrees(w)
      modifies this
      ensures Agrees(Replaced(w)) && timer == |w.timers| && slot == Some(timer)
      ensures w.session.Moving? && w.session.continuous && w.session.phase.Ready? ==> Agrees(Next(w, Register))
      ensures w.session.Moving? && w.session.phase.Late? ==> Agrees(Next(w, RegisterAgain))
    {
      CancelPrevious(slot, w);
      timer := |timers|;
      timers := timers + [Created];
      slot := Some(timer);
    }

    // timer.start(), which raises when no thread can be had.
    method Start(timer: TimerId, now: int, delay: nat, thread: bool, ghost w: World) returns (ok: bool)
      requires Agrees(w) && w.now == now
      modifies this`timers
      ensures ok == thread && Agrees(if ok then Started(w, timer, delay) else Unstartable(w, timer))
    {
      ok := thread;
      if timer < |timers| && timers[timer].Created? {
        timers := timers[timer := if thread then Waiting(now + delay) else Unstarted];
      }
    }

    // The block after a successful Stop or a successful other movement.
    method PopAndCancel(ghost w: World)
      requires Agrees(w)
      modifies this
      ensures slot == None && Agrees(Cleared(w))
      ensures Disarms(w, PopAfterStop) ==> Agrees(Next(w, PopAfterStop))
      ensures Disarms(w, Acknowledge(Accepted)) ==> Agrees(Next(w, Acknowledge(Accepted)))
    {
      CancelPrevious(slot, w);
      slot := None;
    }

    // The callback's check that it is still the registered one.
    method Registered(timer: TimerId, ghost w: World) returns (ok: bool)
      requires Agrees(w) && w.session == AutoStopping(timer, Checking)
      ensures ok <==> Next(w, CheckRegistered).session == AutoStopping(timer, SendingStop)
    {
      ok := slot == Some(timer);
    }

    // The callback's finally block.
    method Finish(timer: TimerId, ghost w: World)
      requires Agrees(w) && TimerAt(w, timer).Wrapping?
      modifies this
      ensures Agrees(Next(w, Finally(timer)))
    {
      if slot == Some(timer) {
        slot := None;
      }
      timers := timers[timer := Done];
    }
  }
}
