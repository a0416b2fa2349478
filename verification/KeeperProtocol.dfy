/** Any number of coordinators, some deposed without knowing it, reconciling one record with
    a Flink cluster: src/pipeline/job_keeper.py, `Keeper.cycle`, `_submit` and `_write`, over
    the doubly fenced record of src/pipeline/coordination.py.

    One transition system. ZooKeeper holds the epoch and the record; every tenure has its own
    place in a cycle and its own memory; a write that was issued may be applied late or never,
    its reply may be lost; a submission that ran may land late or never; listings may omit live
    jobs and lookups may fail. Clocks are unconstrained: nothing proved here depends on time. */
module KeeperProtocol {
  import opened Basics
  import opened JobKeeper

  /** One version of the record: its value, and the epoch under which it was written. */
  datatype Entry = Entry(record: Record, author: nat)

  /** A fenced transaction: applied only under `epoch` and over `version`. */
  datatype Write = Write(epoch: nat, record: Record, version: nat)

  datatype Outcome = Applied(version: nat) | Rejected

  datatype Call = Call(epoch: nat, version: nat)

  datatype Submission = InFlight | Landed(id: JobId)

  /** A job that exists or once existed; `fate` is what a lookup answers now. */
  datatype Job = Job(generation: int, fate: Answer)

  datatype Phase =
    | Idle
    | Retired
    | Reading(version: nat)
    | Gathering(version: nat, listed: Option<seq<Listed>>, states: map<JobId, Answer>)
    | Acting(version: nat, cancel: seq<JobId>, write: Option<Record>, submit: Option<int>)
    | AwaitIntent(wid: nat, submit: Option<int>)
    | Ready(version: nat, generation: int)
    | Calling(version: nat, generation: int, ran: bool)
    | AwaitResult(wid: nat)

  datatype Tenure = Tenure(phase: Phase, mem: Mem)

  /** Everything outside the keepers. `log` is every value the record has had, so the znode
      holds its last entry at version |log| - 1. `writes` is every write issued; those without
      an outcome are in flight. */
  datatype World = World(
    epoch: nat,
    log: seq<Entry>,
    writes: map<nat, Write>,
    outcomes: map<nat, Outcome>,
    calls: map<int, Call>,
    submissions: map<int, Submission>,
    jobs: map<JobId, Job>,
    cancelled: set<JobId>)

  datatype State = State(world: World, tenures: map<nat, Tenure>)

  predicate Init(s: State) {
    s == State(World(0, [Entry(EMPTY_RECORD, 0)], map[], map[], map[], map[], map[], {}), map[])
  }

  function Current(log: seq<Entry>): Record
    requires log != []
  {
    log[|log| - 1].record
  }

  // --- the steps ------------------------------------------------------------------

  function Go(s: State, e: nat, phase: Phase): State
    requires e in s.tenures
  {
    s.(tenures := s.tenures[e := s.tenures[e].(phase := phase)])
  }

  /** `e` goes on to `phase`, with `never` as its marks. */
  function GoMarked(s: State, e: nat, phase: Phase, never: set<int>): State
    requires e in s.tenures
  {
    s.(tenures := s.tenures[e := Tenure(phase, s.tenures[e].mem.(neverSubmitted := never))])
  }

  function Never(s: State, e: nat): set<int>
    requires e in s.tenures
  {
    s.tenures[e].mem.neverSubmitted
  }

  function At(s: State, e: nat): Phase
    requires e in s.tenures
  {
    s.tenures[e].phase
  }

  /** `claim_epoch` succeeds, and a tenure begins under the new epoch. */
  predicate Claim(s: State, s': State) {
    && s'.world == s.world.(epoch := s.world.epoch + 1)
    && s'.tenures == s.tenures[s.world.epoch + 1 := Tenure(Idle, Mem(map[], {}))]
  }

  predicate Read(s: State, s': State, e: nat) {
    s.world.log != [] && e in s.tenures && At(s, e) == Idle && s' == Go(s, e, Reading(|s.world.log| - 1))
  }

  /** A listing tells the truth about what it lists, but may omit anything. */
  predicate Truthful(jobs: map<JobId, Job>, listed: seq<Listed>) {
    forall j :: j in listed ==> j.id in jobs && jobs[j.id].generation == j.generation
  }

  predicate List(s: State, s': State, e: nat, listed: Option<seq<Listed>>) {
    && e in s.tenures && At(s, e).Reading?
    && (listed.Some? ==> Truthful(s.world.jobs, listed.value))
    && s' == Go(s, e, Gathering(At(s, e).version, listed, map[]))
  }

  /** One job asked about directly. A lookup that fails is no step: it leaves no answer. */
  ghost predicate Lookup(s: State, s': State, e: nat, id: JobId) {
    && e in s.tenures && At(s, e).Gathering? && At(s, e).listed.Some?
    && var p, w := At(s, e), s.world;
       && p.version < |w.log|
       && LookupNeeded(w.log[p.version].record, p.listed.value, id)
       && s' == Go(s, e, p.(states := p.states[id := if id in w.jobs then w.jobs[id].fate else NotFound]))
  }

  ghost predicate DecideStep(s: State, s': State, e: nat, now: real, wall: string, plan: Plan, mem': Mem) {
    && e in s.tenures && At(s, e).Gathering?
    && var p := At(s, e);
       && p.version < |s.world.log|
       && Decides(s.world.log[p.version].record, p.listed, p.states, s.tenures[e].mem, now, wall, plan, mem')
       && s' == s.(tenures := s.tenures[e := Tenure(Acting(p.version, plan.cancel, Signed(plan.record, e), plan.submit),
                                                    mem')])
  }

  /** The record to write, under the tenure's own epoch. */
  function Signed(record: Option<Record>, e: nat): Option<Record> {
    if record.Some? then Some(record.value.(epoch := Some(e))) else None
  }

  predicate Cancel(s: State, s': State, e: nat) {
    && e in s.tenures && At(s, e).Acting? && At(s, e).cancel != []
    && var p := At(s, e);
       s' == Go(s, e, p.(cancel := p.cancel[1..])).(world := s.world.(cancelled := s.world.cancelled + {p.cancel[0]}))
  }

  function Send(w: World, wid: nat, write: Write): World {
    w.(writes := w.writes[wid := write])
  }

  predicate Issue(s: State, s': State, e: nat, wid: nat) {
    && e in s.tenures && At(s, e).Acting? && At(s, e).cancel == [] && At(s, e).write.Some? && wid !in s.world.writes
    && var p := At(s, e);
       s' == Go(s, e, AwaitIntent(wid, p.submit)).(world := Send(s.world, wid, Write(e, p.write.value, p.version)))
  }

  /** ZooKeeper processes a write in flight, all or nothing: both fences, then the value. */
  predicate Commit(s: State, s': State, wid: nat) {
    && wid in s.world.writes && wid !in s.world.outcomes
    && var w := s.world;
       s' == s.(world :=
         if Appliable(w, w.writes[wid]) then
           w.(log := w.log + [Entry(w.writes[wid].record, w.writes[wid].epoch)],
              outcomes := w.outcomes[wid := Applied(|w.log|)])
         else
           w.(outcomes := w.outcomes[wid := Rejected]))
  }

  predicate Appliable(w: World, write: Write) {
    write.epoch == w.epoch && write.version + 1 == |w.log|
  }

  predicate Confirm(s: State, s': State, e: nat) {
    && e in s.tenures && At(s, e).AwaitIntent?
    && var p := At(s, e);
       && p.wid in s.world.outcomes && s.world.outcomes[p.wid].Applied?
       && s' == Go(s, e, if p.submit.Some? then Ready(s.world.outcomes[p.wid].version, p.submit.value) else Idle)
  }

  /** The intent's outcome is not known, and never will be to this tenure. */
  predicate Unconfirmed(s: State, s': State, e: nat) {
    && e in s.tenures && At(s, e).AwaitIntent?
    && s' == GoMarked(s, e, Idle, Never(s, e) + (if At(s, e).submit.Some? then {At(s, e).submit.value} else {}))
  }

  /** Interrupted between the confirmed intent and the submission. */
  predicate Pause(s: State, s': State, e: nat) {
    && e in s.tenures && At(s, e).Ready?
    && s' == GoMarked(s, e, Idle, Never(s, e) + {At(s, e).generation})
  }

  /** `submit` is called for the confirmed generation. */
  predicate CallFlink(s: State, s': State, e: nat) {
    && e in s.tenures && At(s, e).Ready?
    && var p := At(s, e);
       s' == GoMarked(s, e, Calling(p.version, p.generation, false), Never(s, e) - {p.generation})
               .(world := s.world.(calls := s.world.calls[p.generation := Call(e, p.version)]))
  }

  /** The submission command runs: from here a job may appear at any time, or never. */
  predicate Run(s: State, s': State, e: nat) {
    && e in s.tenures && At(s, e).Calling? && !At(s, e).ran
    && var p := At(s, e);
       s' == Go(s, e, p.(ran := true)).(world := s.world.(submissions := s.world.submissions[p.generation := InFlight]))
  }

  /** The command never ran: known here, and the attempt is struck off unless interrupted. */
  predicate NeverRan(s: State, s': State, e: nat, wid: nat, interrupted: bool) {
    && e in s.tenures && At(s, e).Calling? && !At(s, e).ran && wid !in s.world.writes
    && var p := At(s, e);
       && p.version < |s.world.log|
       && var known := Never(s, e) + {p.generation};
          var record := s.world.log[p.version].record;
          s' == if interrupted then GoMarked(s, e, Idle, known)
                else GoMarked(s, e, AwaitResult(wid), known).(world :=
                       Send(s.world, wid, Write(e, record.(attempts := record.attempts - {p.generation}), p.version)))
  }

  /** One submission creates at most one job, under a fresh id. */
  predicate Land(s: State, s': State, g: int, id: JobId, state: JobState) {
    && g in s.world.submissions && s.world.submissions[g].InFlight? && id !in s.world.jobs
    && s' == s.(world := s.world.(submissions := s.world.submissions[g := Landed(id)],
                                  jobs := s.world.jobs[id := Job(g, Is(state))]))
  }

  /** The client reports the job's id, which is recorded over the confirmed intent. */
  predicate Returned(s: State, s': State, e: nat, wid: nat) {
    && e in s.tenures && At(s, e).Calling? && At(s, e).ran && wid !in s.world.writes
    && var p, w := At(s, e), s.world;
       && p.version < |w.log|
       && p.generation in w.submissions && w.submissions[p.generation].Landed?
       && var record := w.log[p.version].record;
          && p.generation in record.attempts
          && var attempt := record.attempts[p.generation].(jobId := Some(w.submissions[p.generation].id));
             s' == Go(s, e, AwaitResult(wid)).(world :=
                     Send(w, wid, Write(e, record.(attempts := record.attempts[p.generation := attempt]), p.version)))
  }

  /** A cycle ends wherever it is: nothing more to do, interrupted, refused, uncertain or failed. */
  predicate Abandon(s: State, s': State, e: nat) {
    e in s.tenures && At(s, e) != Retired && s' == Go(s, e, Idle)
  }

  predicate Retire(s: State, s': State, e: nat) {
    e in s.tenures && s' == Go(s, e, Retired)
  }

  /** A job changes as it will, except that terminal and gone are final. */
  predicate JobMoves(s: State, s': State, id: JobId, fate: Answer) {
    && id in s.world.jobs && (Over(s.world.jobs[id].fate) ==> Over(fate))
    && s' == s.(world := s.world.(jobs := s.world.jobs[id := s.world.jobs[id].(fate := fate)]))
  }

  datatype Step =
    | SClaim | SRead(e: nat) | SList(e: nat, listed: Option<seq<Listed>>) | SLookup(e: nat, id: JobId)
    | SDecide(e: nat, now: real, wall: string, plan: Plan, mem: Mem) | SCancel(e: nat) | SIssue(e: nat, wid: nat)
    | SCommit(wid: nat) | SConfirm(e: nat) | SUnconfirmed(e: nat) | SPause(e: nat) | SCall(e: nat) | SRun(e: nat)
    | SNeverRan(e: nat, wid: nat, interrupted: bool) | SLand(g: int, id: JobId, state: JobState)
    | SReturned(e: nat, wid: nat) | SAbandon(e: nat) | SRetire(e: nat) | SJob(id: JobId, fate: Answer)

  ghost predicate Takes(s: State, s': State, step: Step) {
    match step
    case SClaim => Claim(s, s')
    case SRead(e) => Read(s, s', e)
    case SList(e, listed) => List(s, s', e, listed)
    case SLookup(e, id) => Lookup(s, s', e, id)
    case SDecide(e, now, wall, plan, mem) => DecideStep(s, s', e, now, wall, plan, mem)
    case SCancel(e) => Cancel(s, s', e)
    case SIssue(e, wid) => Issue(s, s', e, wid)
    case SCommit(wid) => Commit(s, s', wid)
    case SConfirm(e) => Confirm(s, s', e)
    case SUnconfirmed(e) => Unconfirmed(s, s', e)
    case SPause(e) => Pause(s, s', e)
    case SCall(e) => CallFlink(s, s', e)
    case SRun(e) => Run(s, s', e)
    case SNeverRan(e, wid, interrupted) => NeverRan(s, s', e, wid, interrupted)
    case SLand(g, id, state) => Land(s, s', g, id, state)
    case SReturned(e, wid) => Returned(s, s', e, wid)
    case SAbandon(e) => Abandon(s, s', e)
    case SRetire(e) => Retire(s, s', e)
    case SJob(id, fate) => JobMoves(s, s', id, fate)
  }

  // --- the invariant ----------------------------------------------------------------

  function Gen(log: seq<Entry>, v: nat): int
    requires v < |log|
  {
    log[v].record.generation
  }

  /** Version `v` is the one that brought in generation `g`. */
  predicate Creates(log: seq<Entry>, v: nat, g: int) {
    1 <= v < |log| && Gen(log, v) == g && Gen(log, v - 1) == g - 1
  }

  predicate CreatedBy(log: seq<Entry>, v: nat, g: int, e: nat) {
    Creates(log, v, g) && log[v].author == e
  }

  /** An id recorded under a generation belongs to a job of that generation. */
  ghost predicate IdsTrue(jobs: map<JobId, Job>, attempts: map<int, Attempt>) {
    forall g, id :: Holds(attempts, g, id) ==> id in jobs && jobs[id].generation == g
  }

  predicate StepsByOne(from: int, to: int) {
    to == from || to == from + 1
  }

  ghost predicate LogOk(log: seq<Entry>) {
    && log != [] && log[0] == Entry(EMPTY_RECORD, 0)
    && forall v :: 1 <= v < |log| ==> StepsByOne(Gen(log, v - 1), Gen(log, v))
  }

  ghost predicate LogTrue(log: seq<Entry>, jobs: map<JobId, Job>) {
    forall v :: 0 <= v < |log| ==> IdsTrue(jobs, log[v].record.attempts)
  }

  ghost predicate WriteOk(log: seq<Entry>, epoch: nat, jobs: map<JobId, Job>, write: Write) {
    && write.epoch <= epoch && write.version < |log|
    && StepsByOne(Gen(log, write.version), write.record.generation)
    && IdsTrue(jobs, write.record.attempts)
  }

  ghost predicate OutcomesOk(log: seq<Entry>, writes: map<nat, Write>, outcomes: map<nat, Outcome>) {
    && (forall wid :: wid in outcomes ==> wid in writes)
    && (forall wid :: wid in outcomes && outcomes[wid].Applied? ==>
          && outcomes[wid].version == writes[wid].version + 1 < |log|
          && log[outcomes[wid].version] == Entry(writes[wid].record, writes[wid].epoch))
  }

  ghost predicate CallsOk(log: seq<Entry>, calls: map<int, Call>) {
    forall g :: g in calls ==> CreatedBy(log, calls[g].version, g, calls[g].epoch)
  }

  ghost predicate JobsOk(calls: map<int, Call>, submissions: map<int, Submission>, jobs: map<JobId, Job>) {
    && (forall g :: g in submissions ==> g in calls)
    && (forall g :: g in submissions && submissions[g].Landed? ==>
          submissions[g].id in jobs && jobs[submissions[g].id].generation == g)
    && (forall id :: id in jobs ==>
        jobs[id].generation in submissions && submissions[jobs[id].generation] == Landed(id))
  }

  ghost predicate CancelsOk(log: seq<Entry>, jobs: map<JobId, Job>, cancelled: set<JobId>) {
    forall id :: id in cancelled ==> id in jobs && log != [] && jobs[id].generation < Current(log).generation
  }

  ghost predicate WorldOk(w: World) {
    && LogOk(w.log) && LogTrue(w.log, w.jobs)
    && (forall wid :: wid in w.writes ==> WriteOk(w.log, w.epoch, w.jobs, w.writes[wid]))
    && OutcomesOk(w.log, w.writes, w.outcomes)
    && CallsOk(w.log, w.calls) && JobsOk(w.calls, w.submissions, w.jobs) && CancelsOk(w.log, w.jobs, w.cancelled)
  }

  /** What `e` read at version `v`: under its own epoch nobody else has written since, and
      every submission it ever called is at or below the generation it read. */
  ghost predicate BaseOk(w: World, e: nat, v: nat) {
    && v < |w.log|
    && (e == w.epoch ==> forall u :: v < u < |w.log| ==> w.log[u].author == e)
    && forall g :: g in w.calls && w.calls[g].epoch == e ==> g <= Gen(w.log, v)
  }

  /** A generation marked never submitted, while the tenure's epoch is current, has no
      submission, and nobody but this tenure brought it in. */
  ghost predicate MarksOk(w: World, e: nat, never: set<int>) {
    e == w.epoch ==> forall g :: g in never ==>
      && g !in w.submissions
      && forall v: nat :: Creates(w.log, v, g) ==> w.log[v].author == e
  }

  ghost predicate IntentOk(log: seq<Entry>, v: nat, record: Record, submit: Option<int>) {
    && v < |log| && StepsByOne(Gen(log, v), record.generation)
    && (submit.Some? ==> submit.value == record.generation == Gen(log, v) + 1 && submit.value in record.attempts)
  }

  ghost predicate PhaseOk(w: World, e: nat, p: Phase, never: set<int>) {
    match p
    case Idle => true
    case Retired => true
    case Reading(v) => BaseOk(w, e, v)
    case Gathering(v, listed, states) =>
      && BaseOk(w, e, v)
      && (listed.Some? ==> Truthful(w.jobs, listed.value))
      && (forall id :: id in states ==> id in w.jobs && (Over(states[id]) ==> Over(w.jobs[id].fate)))
    case Acting(v, cancel, write, submit) =>
      && BaseOk(w, e, v)
      && (forall id :: id in cancel ==> id in w.jobs && w.jobs[id].generation < Gen(w.log, v))
      && (write.Some? ==> IntentOk(w.log, v, write.value, submit) && IdsTrue(w.jobs, write.value.attempts))
    case AwaitIntent(wid, submit) =>
      && wid in w.writes && w.writes[wid].epoch == e
      && BaseOk(w, e, w.writes[wid].version)
      && IntentOk(w.log, w.writes[wid].version, w.writes[wid].record, submit)
    case Ready(v, g) =>
      && CreatedBy(w.log, v, g, e)
      && (forall h :: h in w.calls && w.calls[h].epoch == e ==> h < g)
    case Calling(v, g, ran) =>
      && CreatedBy(w.log, v, g, e)
      && g in w.calls && w.calls[g] == Call(e, v) && g !in never
      && (ran <==> g in w.submissions)
    case AwaitResult(wid) => true
  }

  ghost predicate TenureOk(w: World, e: nat, t: Tenure) {
    1 <= e <= w.epoch && MarksOk(w, e, t.mem.neverSubmitted) && PhaseOk(w, e, t.phase, t.mem.neverSubmitted)
  }

  ghost predicate TenuresOk(s: State) {
    forall e :: e in s.tenures ==> TenureOk(s.world, e, s.tenures[e])
  }

  // Owed work: what has run and is not settled, and what may still be run.

  predicate Settled(submissions: map<int, Submission>, jobs: map<JobId, Job>, g: int) {
    && g in submissions && submissions[g].Landed?
    && submissions[g].id in jobs && Over(jobs[submissions[g].id].fate)
  }

  /** A tenure in this phase may still run generation `g`. */
  predicate MayRun(outcomes: map<nat, Outcome>, phase: Phase, g: int) {
    match phase
    case Ready(_, h) => h == g
    case Calling(_, h, ran) => h == g && !ran
    case AwaitIntent(wid, submit) => submit == Some(g) && wid in outcomes && outcomes[wid].Applied?
    case _ => false
  }

  ghost predicate MayBeRun(s: State, g: int) {
    exists e :: e in s.tenures && MayRun(s.world.outcomes, s.tenures[e].phase, g)
  }

  ghost predicate Covers(s: State, attempts: map<int, Attempt>) {
    && (forall g :: g in s.world.submissions ==> Settled(s.world.submissions, s.world.jobs, g) || g in attempts)
    && (forall g :: MayBeRun(s, g) ==> g in attempts)
  }

  /** A write in flight that could still be applied covers all owed work. */
  ghost predicate WriteCovered(s: State, wid: nat) {
    wid in s.world.writes && wid !in s.world.outcomes && Appliable(s.world, s.world.writes[wid]) ==>
      Covers(s, s.world.writes[wid].record.attempts)
  }

  /** So does a record about to be written. */
  ghost predicate ActingCovered(s: State, e: nat) {
    e in s.tenures && s.tenures[e].phase.Acting? && s.tenures[e].phase.write.Some? ==>
      var p := s.tenures[e].phase;
      Appliable(s.world, Write(e, p.write.value, p.version)) ==> Covers(s, p.write.value.attempts)
  }

  /** The record covers all owed work, and so does every record that could still replace it. */
  ghost predicate OwedOk(s: State) {
    && s.world.log != [] && Covers(s, Current(s.world.log).attempts)
    && (forall wid :: WriteCovered(s, wid))
    && (forall e :: ActingCovered(s, e))
  }

  ghost predicate Inv(s: State) {
    WorldOk(s.world) && TenuresOk(s) && OwedOk(s)
  }
}
