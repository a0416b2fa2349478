/** Stopping the keeper while its worker is anywhere: `Keeper.stop`, `_write`, `_track`, `_submit`
    and `_observe` of src/pipeline/job_keeper.py, over their one lock.

    The owner's thread stops the keeper; the worker's issues writes, starts submission clients
    and records observations; tenures are served and retired, and clients end, at any moment.
    Taking the lock, acting under it and releasing it are steps of their own. */
module Shutdown {
  import opened Basics

  datatype Thread = Owner | Worker

  datatype Client = Alive | Terminated | Finished

  /** What the keeper last saw, tagged with an epoch; `seen` is the epoch of the tenure whose cycle
      gathered it. */
  datatype Observation = Observation(epoch: nat, seen: nat)

  datatype Event =
    | Issued(epoch: nat)                 // a record write is sent
    | FlagRaised                         // stop() sets its flag
    | StopReleased                       // and lets go of the lock
    | Started(pid: nat)                  // a submission client is launched
    | Retired(epoch: nat)
    | Recorded(epoch: nat)               // an observation replaces the last one
    | Served(asked: nat, what: Observation)

  datatype OwnerPlace = Running | Locked | FlagSet | Unlocked | Stopped

  datatype WorkerPlace =
    | Idle
    | Working
    | WriteLocked | WriteChecked | WriteIssued
    | Launching
    | Launched(pid: nat)
    | TrackLocked(pid: nat) | Tracked(pid: nat)
    | Communicating(pid: nat)
    | Cleaning | CleanLocked | Cleaned
    | ObserveLocked | ObserveChecked | Observed

  /** The keeper's own fields, but for its thread. */
  datatype Fields = Fields(stopped: bool, child: Option<nat>, observation: Option<Observation>, tenure: Option<nat>)

  /** The worker: where it is, the tenure its cycle is for, and under which epoch what the cycle has
      seen was gathered. */
  datatype Work = Work(place: WorkerPlace, epoch: nat, gathered: Option<nat>)

  /** `active` is the tenures not retired, by epoch; `taken` is the client stop() found. */
  datatype State = State(
    lock: Option<Thread>, keeper: Fields, active: set<nat>,
    owner: OwnerPlace, taken: Option<nat>, work: Work, clients: map<nat, Client>, log: seq<Event>)

  const NEW := Fields(false, None, None, None)

  predicate Init(s: State) {
    && s.lock == None && s.keeper == NEW && s.active == {}
    && s.owner == Running && s.taken == None && s.work.place == Idle && s.work.gathered == None
    && s.clients == map[] && s.log == []
  }

  datatype Step =
    | Begin(e: nat) | Retire(e: nat)                       // a tenure is served, or over
    | StopLock | StopSet | StopUnlock | StopTerminate      // stop()
    | Adopt | Rest                                         // the worker's loop
    | Gather                                               // what the cycle saw, or the error it failed with
    | LockWrite | CheckWrite(ok: bool) | Issue | UnlockWrite
    | CheckSubmit | Launch(pid: nat) | LaunchFails
    | LockTrack | Track | UnlockTrack
    | Ends(pid: nat)                                       // a client ends, by itself or killed
    | Communicate                                          // its end is seen
    | LockClean | Clean | UnlockClean
    | LockObserve | CheckObserve | Observe | UnlockObserve
    | Ask(e: nat)                                          // observation(e), one section under the lock

  /** `_check`, leadership aside: it may refuse more than this. */
  predicate MayGoOn(s: State) {
    !s.keeper.stopped && s.work.epoch in s.active
  }

  /** The worker's cycle: its writes and its observation. */
  predicate InCycle(step: Step) {
    step.Adopt? || step.Gather? || step.Rest? || step.LockWrite? || step.CheckWrite? || step.Issue? || step.UnlockWrite?
    || step.LockObserve? || step.CheckObserve? || step.Observe? || step.UnlockObserve?
  }

  /** The worker's submission, with its client. */
  predicate OnClient(step: Step) {
    step.CheckSubmit? || step.Launch? || step.LaunchFails? || step.LockTrack? || step.Track? || step.UnlockTrack?
    || step.Communicate? || step.LockClean? || step.Clean? || step.UnlockClean?
  }

  predicate Enabled(s: State, step: Step) {
    if InCycle(step) then CycleEnabled(s, step) else if OnClient(step) then ClientEnabled(s, step)
    else OtherEnabled(s, step)
  }

  predicate OtherEnabled(s: State, step: Step) {
    match step
    case Begin(e) => Retired(e) !in s.log    // a tenure's stop flag is never cleared
    case StopLock => s.owner == Running && s.lock == None
    case StopSet => s.owner == Locked
    case StopUnlock => s.owner == FlagSet
    case StopTerminate => s.owner == Unlocked
    case Ends(pid) => pid in s.clients
    case Ask(e) => s.lock == None
    case _ => step.Retire?
  }

  predicate CycleEnabled(s: State, step: Step) {
    match step
    case Adopt =>
      s.work.place == Idle && !s.keeper.stopped && s.keeper.tenure.Some? && s.keeper.tenure.value in s.active
    case Gather => s.work.place == Working && s.work.gathered == None
    case Rest => s.work.place == Working
    case LockWrite => s.work.place == Working && s.lock == None
    case CheckWrite(ok) => s.work.place == WriteLocked && (ok ==> MayGoOn(s))
    case Issue => s.work.place == WriteChecked
    case UnlockWrite => s.work.place == WriteIssued
    case LockObserve => s.work.place == Working && s.lock == None && s.work.gathered.Some?
    case CheckObserve => s.work.place == ObserveLocked
    case Observe => s.work.place == ObserveChecked && s.work.gathered.Some?
    case _ => step.UnlockObserve? && s.work.place == Observed
  }

  predicate ClientEnabled(s: State, step: Step) {
    var place := s.work.place;
    match step
    case CheckSubmit => place == Working && MayGoOn(s)
    case Launch(pid) => place == Launching && pid !in s.clients
    case LaunchFails => place == Launching
    case LockTrack => place.Launched? && s.lock == None
    case Track => place.TrackLocked?
    case UnlockTrack => place.Tracked?
    case Communicate => place.Communicating? && place.pid in s.clients && s.clients[place.pid] == Finished
    case LockClean => place == Cleaning && s.lock == None
    case Clean => place == CleanLocked
    case _ => step.UnlockClean? && place == Cleaned
  }

  /** The worker goes to `place`. */
  function To(s: State, place: WorkerPlace): State {
    s.(work := s.work.(place := place))
  }

  function ToLocked(s: State, place: WorkerPlace): State {
    To(s, place).(lock := Some(Worker))
  }

  function ToUnlocked(s: State, place: WorkerPlace): State {
    To(s, place).(lock := None)
  }

  /** The cycle is over. */
  function Idled(s: State): State {
    s.(work := s.work.(place := Idle, gathered := None))
  }

  function After(s: State, step: Step): State
    requires Enabled(s, step)
  {
    if InCycle(step) then CycleAfter(s, step) else if OnClient(step) then ClientAfter(s, step) else OtherAfter(s, step)
  }

  function OtherAfter(s: State, step: Step): State {
    match step
    case Begin(e) => s.(active := s.active + {e}, keeper := s.keeper.(tenure := Some(e)))
    case Retire(e) => s.(active := s.active - {e}, log := s.log + [Retired(e)])
    case StopLock => s.(owner := Locked, lock := Some(Owner))
    case StopSet =>
      s.(owner := FlagSet, keeper := s.keeper.(stopped := true), taken := s.keeper.child, log := s.log + [FlagRaised])
    case StopUnlock => s.(owner := Unlocked, lock := None, log := s.log + [StopReleased])
    case StopTerminate => End(s, s.taken).(owner := Stopped)
    case Ends(pid) => s.(clients := s.clients[pid := Finished])
    case Ask(e) =>
      if s.keeper.observation.Some? && s.keeper.observation.value.epoch == e
      then s.(log := s.log + [Served(e, s.keeper.observation.value)]) else s
    case _ => s
  }

  function CycleAfter(s: State, step: Step): State
    requires CycleEnabled(s, step)
  {
    match step
    case Adopt => s.(work := s.work.(place := Working, epoch := s.keeper.tenure.value))
    case Gather => s.(work := s.work.(gathered := Some(s.work.epoch)))
    case Rest => Idled(s)
    case LockWrite => ToLocked(s, WriteLocked)
    case CheckWrite(ok) => if ok then To(s, WriteChecked) else Idled(s).(lock := None)
    case Issue => To(s, WriteIssued).(log := s.log + [Issued(s.work.epoch)])
    case UnlockWrite => ToUnlocked(s, Working)
    case LockObserve => ToLocked(s, ObserveLocked)
    case CheckObserve => To(s, if MayGoOn(s) then ObserveChecked else Observed)
    case Observe =>
      To(s, Observed).(keeper := s.keeper.(observation := Some(Observation(s.work.epoch, s.work.gathered.value))),
                       log := s.log + [Recorded(s.work.epoch)])
    case _ => Idled(s).(lock := None)
  }

  function ClientAfter(s: State, step: Step): State
    requires ClientEnabled(s, step)
  {
    match step
    case CheckSubmit => To(s, Launching)
    case Launch(pid) => To(s, Launched(pid)).(clients := s.clients[pid := Alive], log := s.log + [Started(pid)])
    case LaunchFails => To(s, Cleaning)
    case LockTrack => ToLocked(s, TrackLocked(s.work.place.pid))
    case Track =>
      var pid := s.work.place.pid;
      To(if s.keeper.stopped then End(s, Some(pid)) else s.(keeper := s.keeper.(child := Some(pid))), Tracked(pid))
    case UnlockTrack => ToUnlocked(s, Communicating(s.work.place.pid))
    case Communicate => To(s, Cleaning)
    case LockClean => ToLocked(s, CleanLocked)
    case Clean => To(s, Cleaned).(keeper := s.keeper.(child := None))
    case _ => ToUnlocked(s, Working)
  }

  /** `terminate`, unless it has ended already. */
  function End(s: State, pid: Option<nat>): State {
    if pid.Some? && pid.value in s.clients && s.clients[pid.value] == Alive
    then s.(clients := s.clients[pid.value := Terminated]) else s
  }

  // --- the invariant ----------------------------------------------------------------------------

  predicate WorkerHolds(w: WorkerPlace) {
    w.WriteLocked? || w.WriteChecked? || w.WriteIssued? || w.TrackLocked? || w.Tracked?
    || w.CleanLocked? || w.Cleaned?
    || w.ObserveLocked? || w.ObserveChecked? || w.Observed?
  }

  predicate OwnerHolds(o: OwnerPlace) {
    o.Locked? || o.FlagSet?
  }

  ghost predicate LockOk(s: State) {
    && (s.lock == Some(Owner) <==> OwnerHolds(s.owner))
    && (s.lock == Some(Worker) <==> WorkerHolds(s.work.place))
    && (s.keeper.stopped <==> !s.owner.Running? && !s.owner.Locked?)
    && (s.work.place.WriteChecked? || s.work.place.ObserveChecked? ==> !s.keeper.stopped)
  }

  /** What a cycle has gathered, it gathered for the tenure it is for. */
  predicate CycleOk(w: Work) {
    && (w.gathered.Some? ==> w.gathered.value == w.epoch && w.place != Idle)
    && (w.place.ObserveLocked? || w.place.ObserveChecked? ==> w.gathered.Some?)
  }

  /** The worker started the client and has not handed it over yet. */
  predicate Untracked(w: WorkerPlace, pid: nat) {
    w == Launched(pid) || w == TrackLocked(pid)
  }

  /** A client nobody has ended is the worker's latest: not handed over yet, or where stop() finds it. */
  ghost predicate ClientOk(s: State, pid: nat)
    requires pid in s.clients
  {
    s.clients[pid] == Alive && !Untracked(s.work.place, pid) ==>
      && (s.work.place == Tracked(pid) || s.work.place == Communicating(pid))
      && s.keeper.child == Some(pid) && !s.owner.Stopped?
      && (s.owner.FlagSet? || s.owner.Unlocked? ==> s.taken == Some(pid))
  }

  ghost predicate LogOk(log: seq<Event>, released: bool, observation: Option<Observation>) {
    && (StopReleased in log ==> released)
    && (forall i, j :: 0 <= i < j < |log| && log[i] == StopReleased ==> !log[j].Issued?)
    && (forall i :: 0 <= i < |log| && log[i].Served? ==> log[i].what.seen == log[i].asked)
    && (observation.Some? ==> observation.value.seen == observation.value.epoch)
  }

  predicate Released(o: OwnerPlace) {
    o.Unlocked? || o.Stopped?
  }

  /** The two things a cycle does for its tenure under the lock. */
  datatype Act = Write | Note

  function Mark(act: Act, e: nat): Event {
    if act == Write then Issued(e) else Recorded(e)
  }

  /** The tenure whose act has been checked and not yet done. */
  function Pending(s: State, act: Act): Option<nat> {
    if (if act == Write then s.work.place.WriteChecked? else s.work.place.ObserveChecked?) then Some(s.work.epoch)
    else None
  }

  /** After its tenure is retired each act is done at most once, and then none is on its way. */
  ghost predicate RetireOk(log: seq<Event>, active: set<nat>, pending: Option<nat>, act: Act) {
    && (forall e :: Retired(e) in log ==> e !in active)
    && (forall i, j :: 0 <= i < j < |log| && log[i].Retired? && log[j] == Mark(act, log[i].epoch) ==>
          pending != Some(log[i].epoch) && forall k :: j < k < |log| ==> log[k] != log[j])
  }

  /** The flag is in the log once it is set, and after it at most one client is launched, by a worker
      that had then passed its check; and then none is about to be. */
  ghost predicate LaunchOk(log: seq<Event>, stopped: bool, launching: bool) {
    && (FlagRaised in log <==> stopped)
    && (forall i, j :: 0 <= i < j < |log| && log[i] == FlagRaised && log[j].Started? ==>
          !launching && forall k :: j < k < |log| ==> !log[k].Started?)
  }

  /** A client not yet handed over is neither where stop() looks nor terminated. */
  predicate HandOverOk(place: WorkerPlace, clients: map<nat, Client>, child: Option<nat>, taken: Option<nat>) {
    && (child.Some? ==> child.value in clients) && (taken.Some? ==> taken.value in clients)
    && (place.Launched? || place.TrackLocked? ==>
          && place.pid in clients && clients[place.pid] != Terminated
          && child != Some(place.pid) && taken != Some(place.pid))
  }

  ghost predicate Inv(s: State) {
    && LockOk(s) && CycleOk(s.work) && LogOk(s.log, Released(s.owner), s.keeper.observation)
    && (forall act :: RetireOk(s.log, s.active, Pending(s, act), act))
    && LaunchOk(s.log, s.keeper.stopped, s.work.place.Launching?)
    && HandOverOk(s.work.place, s.clients, s.keeper.child, s.taken)
    && forall pid :: pid in s.clients ==> ClientOk(s, pid)
  }

  /** A client is only ended, or handed over; no other step touches what it depends on. */
  lemma ClientKept(s: State, step: Step, pid: nat)
    requires LockOk(s) && Enabled(s, step) && pid in After(s, step).clients
    requires pid in s.clients ==> ClientOk(s, pid)
    ensures ClientOk(After(s, step), pid)
  {
    if InCycle(step) {
      ClientInCycle(s, step, pid);
    } else if OnClient(step) {
      ClientOnClient(s, step, pid);
    }
  }

  lemma ClientInCycle(s: State, step: Step, pid: nat)
    requires CycleEnabled(s, step) && pid in s.clients && ClientOk(s, pid)
    ensures CycleAfter(s, step).clients == s.clients && ClientOk(CycleAfter(s, step), pid)
  {
  }

  lemma ClientOnClient(s: State, step: Step, pid: nat)
    requires LockOk(s) && ClientEnabled(s, step) && pid in ClientAfter(s, step).clients
    requires pid in s.clients ==> ClientOk(s, pid)
    ensures ClientOk(ClientAfter(s, step), pid)
  {
  }

  /** What a step adds to the log. */
  function Adds(s: State, step: Step): seq<Event> {
    match step
    case Retire(e) => [Retired(e)]
    case StopSet => [FlagRaised]
    case StopUnlock => [StopReleased]
    case Launch(pid) => [Started(pid)]
    case Issue => [Issued(s.work.epoch)]
    case Observe => [Recorded(s.work.epoch)]
    case Ask(e) =>
      if s.keeper.observation.Some? && s.keeper.observation.value.epoch == e
      then [Served(e, s.keeper.observation.value)] else []
    case _ => []
  }

  lemma LogStep(s: State, step: Step)
    requires Enabled(s, step)
    ensures After(s, step).log == s.log + Adds(s, step)
  {
  }

  /** A tenure leaves the active ones when it is retired, and joins them only before that. */
  lemma ActiveStep(s: State, step: Step)
    requires Enabled(s, step)
    ensures After(s, step).active ==
            match step { case Begin(e) => s.active + {e} case Retire(e) => s.active - {e} case _ => s.active }
  {
  }

  /** The places that say something of what was checked or gathered. */
  predicate Telling(place: WorkerPlace) {
    place.Idle? || place.WriteChecked? || place.ObserveLocked? || place.ObserveChecked?
  }

  /** Neither a client's affairs nor anybody else's touch what the cycle has checked or gathered. */
  lemma WorkOutside(s: State, step: Step)
    requires Enabled(s, step) && !InCycle(step)
    ensures var w, w' := s.work, After(s, step).work;
            && w'.epoch == w.epoch && w'.gathered == w.gathered
            && (w' == w || !Telling(w'.place))
  {
    if OnClient(step) {
      WorkOnClient(s, step);
    }
  }

  lemma WorkOnClient(s: State, step: Step)
    requires ClientEnabled(s, step)
    ensures var w, w' := s.work, ClientAfter(s, step).work;
            && w'.epoch == w.epoch && w'.gathered == w.gathered
            && !Telling(w'.place)
  {
  }

  /** An act becomes pending only by passing its check, and ceases to be by being done. */
  lemma PendingStep(s: State, step: Step, act: Act)
    requires Enabled(s, step)
    ensures Passed(Pending(s, act), Pending(After(s, step), act), Adds(s, step), s.active, act)
  {
    if InCycle(step) {
      PendingInCycle(s, step, act);
    } else {
      WorkOutside(s, step);
    }
  }

  ghost predicate Passed(p: Option<nat>, p': Option<nat>, added: seq<Event>, active: set<nat>, act: Act) {
    && (p.Some? && Mark(act, p.value) in added ==> p' == None)
    && (p'.Some? ==> p' == p || p'.value in active)
    && (forall e: nat :: Mark(act, e) in added ==> p == Some(e))
  }

  lemma PendingInCycle(s: State, step: Step, act: Act)
    requires CycleEnabled(s, step)
    ensures Passed(Pending(s, act), Pending(CycleAfter(s, step), act), Adds(s, step), s.active, act)
  {
  }

  /** Only recording an observation replaces it, and only stop() is ever on its way out. */
  lemma NotesStep(s: State, step: Step)
    requires Enabled(s, step)
    ensures After(s, step).keeper.observation ==
            if step.Observe? then Some(Observation(s.work.epoch, s.work.gathered.value)) else s.keeper.observation
    ensures Released(After(s, step).owner) == (Released(s.owner) || step.StopUnlock?)
  {
    if InCycle(step) {
      NotesInCycle(s, step);
    } else if OnClient(step) {
      NotesOnClient(s, step);
    }
  }

  lemma NotesInCycle(s: State, step: Step)
    requires CycleEnabled(s, step)
    ensures CycleAfter(s, step).owner == s.owner && CycleAfter(s, step).keeper.observation ==
            if step.Observe? then Some(Observation(s.work.epoch, s.work.gathered.value)) else s.keeper.observation
  {
  }

  lemma NotesOnClient(s: State, step: Step)
    requires ClientEnabled(s, step)
    ensures ClientAfter(s, step).owner == s.owner && ClientAfter(s, step).keeper.observation == s.keeper.observation
  {
  }

  lemma LogKept(s: State, step: Step)
    requires LockOk(s) && CycleOk(s.work) && LogOk(s.log, Released(s.owner), s.keeper.observation) && Enabled(s, step)
    ensures var s' := After(s, step); LogOk(s'.log, Released(s'.owner), s'.keeper.observation)
  {
    var s' := After(s, step);
    LogStep(s, step);
    NotesStep(s, step);
    if Adds(s, step) != [] {
      LogOneMore(s.log, Released(s.owner), s.keeper.observation, Adds(s, step)[0], Released(s'.owner),
                 s'.keeper.observation);
    }
  }

  lemma LogOneMore(log: seq<Event>, released: bool, observation: Option<Observation>,
                   e: Event, released': bool, observation': Option<Observation>)
    requires LogOk(log, released, observation) && (released || e == StopReleased ==> released')
    requires e.Issued? ==> !released
    requires e.Served? ==> e.what.seen == e.asked
    requires observation'.Some? ==> observation'.value.seen == observation'.value.epoch
    ensures LogOk(log + [e], released', observation')
  {
  }

  lemma RetireKept(s: State, step: Step, act: Act)
    requires RetireOk(s.log, s.active, Pending(s, act), act) && Enabled(s, step)
    ensures var s' := After(s, step); RetireOk(s'.log, s'.active, Pending(s', act), act)
  {
    LogStep(s, step);
    ActiveStep(s, step);
    PendingStep(s, step, act);
    var added, s' := Adds(s, step), After(s, step);
    RetireOneMore(s.log, s.active, Pending(s, act), act, added, s'.active, Pending(s', act));
  }

  lemma RetireOneMore(log: seq<Event>, active: set<nat>, pending: Option<nat>, act: Act,
                      added: seq<Event>, active': set<nat>, pending': Option<nat>)
    requires RetireOk(log, active, pending, act) && |added| <= 1
    requires forall e :: e in active' ==> Retired(e) !in added && (e in active || Retired(e) !in log)
    requires pending.Some? && Mark(act, pending.value) in added ==> pending' == None
    requires pending'.Some? ==> pending' == pending || pending'.value in active
    requires forall e: nat :: Mark(act, e) in added ==> pending == Some(e)
    ensures RetireOk(log + added, active', pending', act)
  {
    var log' := log + added;
    forall i, j | 0 <= i < j < |log'| && log'[i].Retired? && log'[j] == Mark(act, log'[i].epoch)
      ensures pending' != Some(log'[i].epoch) && forall k :: j < k < |log'| ==> log'[k] != log'[j]
    {
      assert log'[i] == log[i] && log[i] == Retired(log[i].epoch) && log[i] in log;
      if j == |log| {
        assert log'[j] == added[0] && added[0] in added;
      } else if |log| < |log'| {
        assert log'[|log|] == added[0] && added[0] in added;
      }
    }
    assert forall e :: Retired(e) in log' ==> Retired(e) in log || Retired(e) in added;
  }

  /** A worker comes to launching only by a check that the flag would have failed. */
  lemma LaunchStep(s: State, step: Step)
    requires Enabled(s, step)
    ensures var s' := After(s, step);
            && s'.keeper.stopped == (s.keeper.stopped || step.StopSet?)
            && (s'.work.place.Launching? ==> s.work.place.Launching? || !s.keeper.stopped)
            && (step.Launch? ==> s.work.place.Launching? && !s'.work.place.Launching?)
  {
    if OnClient(step) {
      LaunchOnClient(s, step);
    }
  }

  lemma LaunchOnClient(s: State, step: Step)
    requires ClientEnabled(s, step)
    ensures var s' := ClientAfter(s, step);
            && s'.keeper.stopped == s.keeper.stopped
            && (s'.work.place.Launching? ==> s.work.place.Launching? || !s.keeper.stopped)
            && (step.Launch? ==> s.work.place.Launching? && !s'.work.place.Launching?)
  {
  }

  lemma LaunchKept(s: State, step: Step)
    requires LaunchOk(s.log, s.keeper.stopped, s.work.place.Launching?) && Enabled(s, step)
    ensures var s' := After(s, step); LaunchOk(s'.log, s'.keeper.stopped, s'.work.place.Launching?)
  {
    LogStep(s, step);
    LaunchStep(s, step);
    var s' := After(s, step);
    LaunchOneMore(s.log, s.keeper.stopped, s.work.place.Launching?, Adds(s, step), s'.keeper.stopped,
                  s'.work.place.Launching?);
  }

  lemma LaunchOneMore(log: seq<Event>, stopped: bool, launching: bool, added: seq<Event>, stopped': bool,
                      launching': bool)
    requires LaunchOk(log, stopped, launching) && |added| <= 1
    requires stopped' == (stopped || added == [FlagRaised])
    requires launching' ==> launching || !stopped
    requires added != [] && added[0].Started? ==> launching && !launching'
    ensures LaunchOk(log + added, stopped', launching')
  {
    var log' := log + added;
    forall i, j | 0 <= i < j < |log'| && log'[i] == FlagRaised && log'[j].Started?
      ensures !launching' && forall k :: j < k < |log'| ==> !log'[k].Started?
    {
      assert log'[i] == log[i] && log[i] in log;
    }
  }

  lemma HandOverKept(s: State, step: Step)
    requires HandOverOk(s.work.place, s.clients, s.keeper.child, s.taken) && Enabled(s, step)
    ensures var s' := After(s, step); HandOverOk(s'.work.place, s'.clients, s'.keeper.child, s'.taken)
  {
    if InCycle(step) {
      HandOverInCycle(s, step);
    } else if OnClient(step) {
      HandOverOnClient(s, step);
    }
  }

  lemma HandOverInCycle(s: State, step: Step)
    requires CycleEnabled(s, step)
    ensures var s' := CycleAfter(s, step);
            && s'.clients == s.clients && s'.keeper.child == s.keeper.child && s'.taken == s.taken
            && !s'.work.place.Launched? && !s'.work.place.TrackLocked?
  {
  }

  lemma HandOverOnClient(s: State, step: Step)
    requires HandOverOk(s.work.place, s.clients, s.keeper.child, s.taken) && ClientEnabled(s, step)
    ensures var s' := ClientAfter(s, step); HandOverOk(s'.work.place, s'.clients, s'.keeper.child, s'.taken)
  {
  }

  lemma LockKept(s: State, step: Step)
    requires LockOk(s) && Enabled(s, step)
    ensures LockOk(After(s, step))
  {
    if InCycle(step) {
      LockInCycle(s, step);
    } else if OnClient(step) {
      LockOnClient(s, step);
    }
  }

  lemma LockInCycle(s: State, step: Step)
    requires LockOk(s) && CycleEnabled(s, step)
    ensures LockOk(CycleAfter(s, step))
  {
  }

  lemma LockOnClient(s: State, step: Step)
    requires LockOk(s) && ClientEnabled(s, step)
    ensures LockOk(ClientAfter(s, step))
  {
  }

  lemma CycleKept(s: State, step: Step)
    requires CycleOk(s.work) && Enabled(s, step)
    ensures CycleOk(After(s, step).work)
  {
    if InCycle(step) {
      CycleInCycle(s, step);
    } else {
      WorkOutside(s, step);
    }
  }

  lemma CycleInCycle(s: State, step: Step)
    requires CycleOk(s.work) && CycleEnabled(s, step)
    ensures CycleOk(CycleAfter(s, step).work)
  {
  }

  lemma InvKept(s: State, step: Step)
    requires Inv(s) && Enabled(s, step)
    ensures Inv(After(s, step))
  {
    LockKept(s, step);
    CycleKept(s, step);
    LogKept(s, step);
    LaunchKept(s, step);
    HandOverKept(s, step);
    forall act
      ensures var s' := After(s, step); RetireOk(s'.log, s'.active, Pending(s', act), act)
    {
      RetireKept(s, step, act);
    }
    forall pid | pid in After(s, step).clients
      ensures ClientOk(After(s, step), pid)
    {
      ClientKept(s, step, pid);
    }
  }

  // --- every run ------------------------------------------------------------------------------------

  ghost predicate Moves(s: State, s': State) {
    exists step :: Enabled(s, step) && s' == After(s, step)
  }

  ghost predicate Linked(b: seq<State>, i: nat)
    requires i + 1 < |b|
  {
    Moves(b[i], b[i + 1])
  }

  ghost predicate Behavior(b: seq<State>) {
    b != [] && Init(b[0]) && forall i: nat :: i + 1 < |b| ==> Linked(b, i)
  }

  lemma {:induction false} Reached(b: seq<State>, i: nat)
    requires Behavior(b) && i < |b|
    ensures Inv(b[i])
  {
    if i > 0 {
      Reached(b, i - 1);
      assert Linked(b, i - 1);
      var step :| Enabled(b[i - 1], step) && b[i] == After(b[i - 1], step);
      InvKept(b[i - 1], step);
    }
  }

  /** Once stop() has let go of the lock no record write is ever issued. */
  lemma NoWriteAfterStop(b: seq<State>, n: nat, i: nat, j: nat)
    requires Behavior(b) && n < |b| && i < j < |b[n].log| && b[n].log[i] == StopReleased
    ensures !b[n].log[j].Issued?
  {
    Reached(b, n);
  }

  /** When stop() has returned, a client is still alive if and only if it is the one the worker has
      launched and not handed over, and has not ended by itself; handing it over terminates it. */
  lemma ClientsEndAtStop(b: seq<State>, n: nat, pid: nat)
    requires Behavior(b) && n < |b| && b[n].owner == Stopped && pid in b[n].clients
    ensures b[n].clients[pid] == Alive <==> Untracked(b[n].work.place, pid) && b[n].clients[pid] != Finished
    ensures Untracked(b[n].work.place, pid) && Enabled(b[n], Track) ==> After(b[n], Track).clients[pid] != Alive
  {
    Reached(b, n);
    assert ClientOk(b[n], pid);
  }

  /** After stop() has set its flag at most one client is ever launched. */
  lemma AtMostOneLaunchAfterFlag(b: seq<State>, n: nat, i: nat, j: nat, k: nat)
    requires Behavior(b) && n < |b| && i < j < k < |b[n].log| && b[n].log[i] == FlagRaised && b[n].log[j].Started?
    ensures !b[n].log[k].Started?
  {
    Reached(b, n);
  }

  ghost predicate NoStartFrom(log: seq<Event>, from: nat) {
    forall k :: from <= k < |log| ==> !log[k].Started?
  }

  lemma StoppedStays(s: State, s': State)
    requires s.keeper.stopped && !s.work.place.Launching? && Moves(s, s')
    ensures s'.keeper.stopped && !s'.work.place.Launching? && s.log <= s'.log && NoStartFrom(s'.log, |s.log|)
  {
    var step :| Enabled(s, step) && s' == After(s, step);
    LogStep(s, step);
    LaunchStep(s, step);
  }

  lemma {:induction false} StoppedAlong(b: seq<State>, i: nat, j: nat)
    requires Behavior(b) && i <= j < |b| && b[i].keeper.stopped && !b[i].work.place.Launching?
    ensures b[j].keeper.stopped && !b[j].work.place.Launching?
    ensures b[i].log <= b[j].log && NoStartFrom(b[j].log, |b[i].log|)
    decreases j
  {
    if i < j {
      StoppedAlong(b, i, j - 1);
      assert Linked(b, j - 1);
      StoppedStays(b[j - 1], b[j]);
    }
  }

  /** Exactly what stop() promises of clients: whatever happens afterwards none is launched, if and
      only if the worker had not passed its check for one when the flag was set. */
  lemma StopSilencesLaunchesIff(b: seq<State>, n: nat)
    requires Behavior(b) && n + 1 < |b| && Enabled(b[n], StopSet) && b[n + 1] == After(b[n], StopSet)
    ensures (forall c: seq<State> :: Behavior(c) && b[..n + 2] <= c ==> NoStartFrom(c[|c| - 1].log, |b[n + 1].log|))
       <==> !b[n].work.place.Launching?
  {
    var upTo := b[..n + 2];
    if b[n].work.place.Launching? {
      Prefix(b, n + 2);
      var pid := NoClient(b[n + 1].clients.Keys);
      var c := Extend(upTo, Launch(pid));
      assert c[|c| - 1].log[|b[n + 1].log|] == Started(pid);
    } else {
      forall c: seq<State> | Behavior(c) && upTo <= c
        ensures NoStartFrom(c[|c| - 1].log, |b[n + 1].log|)
      {
        assert c[n + 1] == upTo[n + 1] == b[n + 1];
        StoppedAlong(c, n + 1, |c| - 1);
      }
    }
  }

  /** The beginning of a run is a run. */
  lemma Prefix(b: seq<State>, n: nat)
    requires Behavior(b) && 0 < n <= |b|
    ensures Behavior(b[..n])
  {
    forall i: nat | i + 1 < n
      ensures Linked(b[..n], i)
    {
      assert Linked(b, i);
    }
  }

  lemma {:induction false} NoClient(pids: set<nat>) returns (pid: nat)
    ensures forall p :: p in pids ==> p < pid
  {
    if pids == {} {
      pid := 0;
    } else {
      var p := Pick(pids);
      var m := NoClient(pids - {p});
      pid := if p < m then m else p + 1;
      assert forall q :: q in pids ==> q == p || q in pids - {p};
    }
  }

  /** A run in which a client is launched after stop() has returned, and is alive then. */
  lemma LaunchedAfterStop() returns (b: seq<State>)
    ensures Behavior(b) && b[|b| - 1].owner == Stopped
    ensures b[|b| - 1].clients == map[1 := Alive] && b[|b| - 1].log == [FlagRaised, StopReleased, Started(1)]
  {
    b := Adopts();
    b := Extend(b, CheckSubmit);
    b := Stops(b);
    b := Extend(b, Launch(1));
  }

  /** `stop()` from beginning to end, with nothing in between. */
  lemma Stops(b: seq<State>) returns (b': seq<State>)
    requires Behavior(b) && b[|b| - 1].owner == Running && b[|b| - 1].lock == None && b[|b| - 1].keeper.child == None
    requires b[|b| - 1].clients == map[] && b[|b| - 1].log == []
    ensures Behavior(b') && b'[|b'| - 1].owner == Stopped && b'[|b'| - 1].work == b[|b| - 1].work
    ensures b'[|b'| - 1].clients == map[] && b'[|b'| - 1].log == [FlagRaised, StopReleased]
  {
    b' := RaisesFlag(b);
    b' := Extend(b', StopUnlock);
    b' := Extend(b', StopTerminate);
  }

  lemma RaisesFlag(b: seq<State>) returns (b': seq<State>)
    requires Behavior(b) && b[|b| - 1].owner == Running && b[|b| - 1].lock == None && b[|b| - 1].keeper.child == None
    ensures Behavior(b') && b'[|b'| - 1].owner == FlagSet && b'[|b'| - 1].taken == None
    ensures b'[|b'| - 1].work == b[|b| - 1].work
    ensures b'[|b'| - 1].clients == b[|b| - 1].clients && b'[|b'| - 1].log == b[|b| - 1].log + [FlagRaised]
  {
    b' := Extend(b, StopLock);
    b' := Extend(b', StopSet);
  }

  /** At most one client is ever alive and not terminated. */
  lemma OneClientAtATime(b: seq<State>, n: nat, pid: nat, other: nat)
    requires Behavior(b) && n < |b| && pid in b[n].clients && other in b[n].clients
    requires b[n].clients[pid] == Alive && b[n].clients[other] == Alive
    ensures pid == other
  {
    Reached(b, n);
    assert ClientOk(b[n], pid) && ClientOk(b[n], other);
  }

  /** The client that stop() would find, by where the worker is: the one it waits for, unless that was
      handed over after the flag was set; and none, but for the moment it takes to clear it. */
  predicate ChildOk(place: WorkerPlace, child: Option<nat>, stopped: bool) {
    match place
    case Tracked(pid) => child == Some(pid) || (child == None && stopped)
    case Communicating(pid) => child == Some(pid) || (child == None && stopped)
    case Cleaning => true
    case CleanLocked => true
    case _ => child == None
  }

  lemma ChildStep(s: State, s': State)
    requires Moves(s, s') && ChildOk(s.work.place, s.keeper.child, s.keeper.stopped)
    ensures ChildOk(s'.work.place, s'.keeper.child, s'.keeper.stopped)
  {
    var step :| Enabled(s, step) && s' == After(s, step);
    if InCycle(step) {
      ChildInCycle(s, step);
    } else if OnClient(step) {
      ChildOnClient(s, step);
    }
  }

  lemma ChildOnClient(s: State, step: Step)
    requires ClientEnabled(s, step) && ChildOk(s.work.place, s.keeper.child, s.keeper.stopped)
    ensures var s' := ClientAfter(s, step); ChildOk(s'.work.place, s'.keeper.child, s'.keeper.stopped)
  {
  }

  lemma ChildInCycle(s: State, step: Step)
    requires CycleEnabled(s, step)
    ensures var s' := CycleAfter(s, step);
            && s'.keeper.child == s.keeper.child && s'.keeper.stopped == s.keeper.stopped
            && (ChildOk(s.work.place, s.keeper.child, s.keeper.stopped) ==>
                  ChildOk(s'.work.place, s'.keeper.child, s'.keeper.stopped))
  {
  }

  /** In every state of every run stop() finds the client that is being waited for, and no other. */
  lemma {:induction false} ChildFound(b: seq<State>, n: nat)
    requires Behavior(b) && n < |b|
    ensures ChildOk(b[n].work.place, b[n].keeper.child, b[n].keeper.stopped)
  {
    if n > 0 {
      ChildFound(b, n - 1);
      assert Linked(b, n - 1);
      ChildStep(b[n - 1], b[n]);
    }
  }

  // --- observations ---------------------------------------------------------------------------

  /** However tenures are handed over and retired while a cycle is under way, an observation is
      served only for the epoch of the tenure whose cycle gathered it. */
  lemma ObservationOwnEpoch(b: seq<State>, n: nat, i: nat)
    requires Behavior(b) && n < |b| && i < |b[n].log| && b[n].log[i].Served?
    ensures b[n].log[i].what.seen == b[n].log[i].asked
  {
    Reached(b, n);
  }

  /** The epoch whose cycle recorded last. */
  function LastRecorded(log: seq<Event>): Option<nat> {
    if log == [] then None
    else if log[|log| - 1].Recorded? then Some(log[|log| - 1].epoch) else LastRecorded(log[..|log| - 1])
  }

  lemma LastRecordedStep(s: State, step: Step)
    requires Enabled(s, step)
    ensures LastRecorded(After(s, step).log) == if step.Observe? then Some(s.work.epoch) else LastRecorded(s.log)
  {
    LogStep(s, step);
    var log, added := s.log, Adds(s, step);
    assert |added| <= 1;
    if added == [] {
      assert log + added == log;
    } else {
      assert (log + added)[..|log|] == log;
    }
  }

  /** The keeper's observation is that of the cycle that recorded last. */
  predicate Latest(observation: Option<Observation>, log: seq<Event>) {
    var last := LastRecorded(log);
    observation == if last.Some? then Some(Observation(last.value, last.value)) else None
  }

  lemma LatestStep(s: State, step: Step)
    requires Enabled(s, step) && CycleOk(s.work) && Latest(s.keeper.observation, s.log)
    ensures var s' := After(s, step); Latest(s'.keeper.observation, s'.log)
  {
    LastRecordedStep(s, step);
    NotesStep(s, step);
  }

  lemma LatestMoves(s: State, s': State)
    requires Moves(s, s') && CycleOk(s.work) && Latest(s.keeper.observation, s.log)
    ensures Latest(s'.keeper.observation, s'.log)
  {
    var step :| Enabled(s, step) && s' == After(s, step);
    LatestStep(s, step);
  }

  lemma {:induction false} ObservationLatest(b: seq<State>, n: nat)
    requires Behavior(b) && n < |b|
    ensures Latest(b[n].keeper.observation, b[n].log)
  {
    if n > 0 {
      ObservationLatest(b, n - 1);
      Reached(b, n - 1);
      assert Linked(b, n - 1);
      LatestMoves(b[n - 1], b[n]);
    }
  }

  /** Asking for an epoch's observation serves one if and only if that epoch's cycle was the last to
      record, and then that cycle's own. */
  lemma ObservationExactly(b: seq<State>, n: nat, e: nat)
    requires Behavior(b) && n < |b| && b[n].lock == None
    ensures Enabled(b[n], Ask(e))
    ensures After(b[n], Ask(e)) ==
            b[n].(log := b[n].log +
                         if LastRecorded(b[n].log) == Some(e) then [Served(e, Observation(e, e))] else [])
  {
    ObservationLatest(b, n);
    assert b[n].log + [] == b[n].log;
  }

  /** What an active tenure's cycle saw gets through: it can be recorded, and then it is served. */
  lemma ObservationGetsThrough(b: seq<State>) returns (b': seq<State>)
    requires Behavior(b)
    requires var s := b[|b| - 1]; s.work.place == Working && s.work.gathered.Some? && s.lock == None && MayGoOn(s)
    ensures Behavior(b') && b <= b'
    ensures var e, s' := b[|b| - 1].work.epoch, b'[|b'| - 1];
            s'.log == b[|b| - 1].log + [Recorded(e), Served(e, Observation(e, e))]
  {
    b' := Records(b);
    b' := Extend(b', UnlockObserve);
    var e, n := b[|b| - 1].work.epoch, |b'| - 1;
    ObservationExactly(b', n, e);
    assert LastRecorded(b'[n].log) == Some(e);
    b' := Extend(b', Ask(e));
  }

  lemma Records(b: seq<State>) returns (b': seq<State>)
    requires Behavior(b)
    requires var s := b[|b| - 1]; s.work.place == Working && s.work.gathered.Some? && s.lock == None && MayGoOn(s)
    ensures Behavior(b') && b <= b'
    ensures var s, s' := b[|b| - 1], b'[|b'| - 1];
            s'.work == s.work.(place := Observed) && s'.log == s.log + [Recorded(s.work.epoch)]
  {
    b' := ChecksObservation(b);
    b' := Extend(b', Observe);
  }

  lemma ChecksObservation(b: seq<State>) returns (b': seq<State>)
    requires Behavior(b)
    requires var s := b[|b| - 1]; s.work.place == Working && s.work.gathered.Some? && s.lock == None && MayGoOn(s)
    ensures Behavior(b') && b <= b'
    ensures var s, s' := b[|b| - 1], b'[|b'| - 1]; s'.work == s.work.(place := ObserveChecked) && s'.log == s.log
  {
    b' := Extend(b, LockObserve);
    b' := Extend(b', CheckObserve);
  }

  lemma FrozenStep(s: State, s': State)
    requires LockOk(s) && s.keeper.stopped && Moves(s, s')
    ensures s'.keeper.stopped && s'.keeper.observation == s.keeper.observation
  {
  }

  /** Once stop() has set its flag no observation is ever recorded: what was last seen stays. */
  lemma {:induction false} FrozenOnceStopped(b: seq<State>, i: nat, j: nat)
    requires Behavior(b) && i <= j < |b| && b[i].keeper.stopped
    ensures b[j].keeper.stopped && b[j].keeper.observation == b[i].keeper.observation
    decreases j
  {
    if i < j {
      FrozenOnceStopped(b, i, j - 1);
      Reached(b, j - 1);
      assert Linked(b, j - 1);
      FrozenStep(b[j - 1], b[j]);
    }
  }

  // --- what retiring a tenure promises ------------------------------------------------------------

  /** Retiring a tenure lets at most one of its writes be issued afterwards, and at most one of its
      observations be recorded. */
  lemma AtMostOneAfterRetire(b: seq<State>, n: nat, i: nat, j: nat, k: nat, act: Act)
    requires Behavior(b) && n < |b| && i < j < k < |b[n].log| && b[n].log[i].Retired?
    requires b[n].log[j] == Mark(act, b[n].log[i].epoch)
    ensures b[n].log[k] != Mark(act, b[n].log[i].epoch)
  {
    Reached(b, n);
    assert RetireOk(b[n].log, b[n].active, Pending(b[n], act), act);
  }

  /** The tenure is retired, and nothing checked for it is left to be done. */
  ghost predicate Quiet(s: State, e: nat, act: Act) {
    e !in s.active && Retired(e) in s.log && Pending(s, act) != Some(e)
  }

  lemma QuietKept(s: State, s': State, e: nat, act: Act)
    requires Quiet(s, e, act) && Moves(s, s')
    ensures Quiet(s', e, act) && s.log <= s'.log && NoneFrom(s'.log, |s.log|, e, act)
  {
    var step :| Enabled(s, step) && s' == After(s, step);
    LogStep(s, step);
    ActiveStep(s, step);
    PendingStep(s, step, act);
  }

  lemma {:induction false} QuietAlong(b: seq<State>, i: nat, j: nat, e: nat, act: Act)
    requires Behavior(b) && i <= j < |b| && Quiet(b[i], e, act)
    ensures Quiet(b[j], e, act) && b[i].log <= b[j].log
    ensures NoneFrom(b[j].log, |b[i].log|, e, act)
    decreases j
  {
    if i < j {
      QuietAlong(b, i, j - 1, e, act);
      assert Linked(b, j - 1);
      QuietKept(b[j - 1], b[j], e, act);
    }
  }

  ghost predicate NoneFrom(log: seq<Event>, from: nat, e: nat, act: Act) {
    forall k :: from <= k < |log| ==> log[k] != Mark(act, e)
  }

  /** In every continuation of the run's first `n` states, nothing of the kind is done for `e` any more. */
  ghost predicate SilentFrom(b: seq<State>, n: nat, e: nat, act: Act)
    requires 0 < n <= |b|
  {
    forall c: seq<State> :: Behavior(c) && b[..n] <= c ==> NoneFrom(c[|c| - 1].log, |b[n - 1].log|, e, act)
  }

  /** Exactly what retiring a tenure promises: no write of it is issued afterwards, whatever
      happens, if and only if none had passed its check when it was retired; and likewise for
      recording what it saw. */
  lemma RetireSilencesIff(b: seq<State>, n: nat, e: nat, act: Act)
    requires Behavior(b) && n + 1 < |b| && b[n + 1] == After(b[n], Retire(e))
    ensures SilentFrom(b, n + 2, e, act) <==> Pending(b[n], act) != Some(e)
  {
    var upTo := b[..n + 2];
    if Pending(b[n], act) == Some(e) {
      var c := DoneAfterRetire(b, n, e, act);
      assert c[|c| - 1].log[|b[n + 1].log|] == Mark(act, e);
    } else {
      forall c: seq<State> | Behavior(c) && upTo <= c
        ensures NoneFrom(c[|c| - 1].log, |b[n + 1].log|, e, act)
      {
        assert c[n + 1] == upTo[n + 1] == b[n + 1];
        QuietAlong(c, n + 1, |c| - 1, e, act);
      }
    }
  }

  /** An act checked before the retirement can always be done after it. */
  lemma DoneAfterRetire(b: seq<State>, n: nat, e: nat, act: Act) returns (c: seq<State>)
    requires Behavior(b) && n + 1 < |b| && b[n + 1] == After(b[n], Retire(e)) && Pending(b[n], act) == Some(e)
    ensures Behavior(c) && b[..n + 2] <= c && c[|c| - 1].log == b[n + 1].log + [Mark(act, e)]
  {
    var upTo := b[..n + 2];
    Prefix(b, n + 2);
    Reached(b, n + 1);
    c := Extend(upTo, if act == Write then Issue else Observe);
  }

  /** A run in which a retired tenure's write, checked before, is issued after. */
  lemma RetireIsNotEnough() returns (b: seq<State>)
    ensures Behavior(b) && b[|b| - 1].log == [Retired(7), Issued(7)]
  {
    b := Adopts();
    b := Checks(b);
    b := Extend(b, Retire(7));
    assert b[|b| - 1].work == Work(WriteChecked, 7, None) && b[|b| - 1].log == [Retired(7)];
    b := Extend(b, Issue);
  }

  lemma Adopts() returns (b: seq<State>)
    ensures Behavior(b)
    ensures b[|b| - 1] == State(None, NEW.(tenure := Some(7)), {7}, Running, None, Work(Working, 7, None), map[], [])
  {
    b := [State(None, NEW, {}, Running, None, Work(Idle, 0, None), map[], [])];
    b := Extend(b, Begin(7));
    b := Extend(b, Adopt);
  }

  lemma Checks(b: seq<State>) returns (b': seq<State>)
    requires Behavior(b)
    requires b[|b| - 1] == State(None, NEW.(tenure := Some(7)), {7}, Running, None, Work(Working, 7, None), map[], [])
    ensures Behavior(b') && b'[|b'| - 1].work == Work(WriteChecked, 7, None) && b'[|b'| - 1].log == []
  {
    b' := Extend(b, LockWrite);
    b' := Extend(b', CheckWrite(true));
  }

  lemma Extend(b: seq<State>, step: Step) returns (b': seq<State>)
    requires Behavior(b) && Enabled(b[|b| - 1], step)
    ensures Behavior(b') && b <= b' && b'[|b'| - 1] == After(b[|b| - 1], step)
  {
    b' := b + [After(b[|b| - 1], step)];
    forall i: nat | i + 1 < |b'|
      ensures Linked(b', i)
    {
      assert i + 1 < |b| ==> Linked(b, i);
    }
  }
}
