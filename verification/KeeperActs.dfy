/** What the steps of a keeper do over a run: an id submitted is recorded and stays, a submission that
    never ran leaves no trace, a plan is carried out in order, and a superseded job can be cancelled
    (src/pipeline/job_keeper.py, `Keeper.cycle` and `_submit`). */
module KeeperActs {
  import opened Basics
  import opened JobKeeper
  import opened KeeperProtocol
  import opened KeeperSafety
  import opened KeeperTheorems
  import opened KeeperExact
  import KeeperTakeover

  // --- what each step of a submission puts where ------------------------------------------------------

  /** Writes `record` over the version that the tenure's confirmed intent made, and waits. */
  predicate Sends(s: State, s': State, e: nat, wid: nat, record: Record)
    requires e in s.tenures && At(s, e).Calling?
  {
    && s'.world == s.world.(writes := s.world.writes[wid := Write(e, record, At(s, e).version)])
    && e in s'.tenures && At(s', e) == AwaitResult(wid)
  }

  /** `next` is `record` but for the attempt of generation `g`. */
  ghost predicate SameBut(record: Record, next: Record, g: int) {
    && next.generation == record.generation && next.epoch == record.epoch && next.failures == record.failures
    && forall h :: h != g ==>
         && (h in next.attempts <==> h in record.attempts)
         && (h in next.attempts && h in record.attempts ==> next.attempts[h] == record.attempts[h])
  }

  /** A submission that landed: the write sent holds its job's id, and is otherwise the intent's record. */
  lemma ReturnedSends(s: State, s': State, e: nat, wid: nat)
    requires Returned(s, s', e, wid)
    ensures wid !in s.world.writes && wid in s'.world.writes
    ensures var p, record := At(s, e), s'.world.writes[wid].record;
            var intent := s.world.log[p.version].record;
            && Sends(s, s', e, wid, record) && SameBut(intent, record, p.generation)
            && s.world.submissions[p.generation].Landed?
            && p.generation in intent.attempts
            && p.generation in record.attempts
            && record.attempts[p.generation] ==
                 Attempt(Some(s.world.submissions[p.generation].id), intent.attempts[p.generation].submittedAt)
  {
  }

  /** A command that never ran: the mark is there, and the write sent, if any, is without the attempt. */
  lemma NeverRanSends(s: State, s': State, e: nat, wid: nat, interrupted: bool)
    requires NeverRan(s, s', e, wid, interrupted)
    ensures e in s'.tenures && At(s, e).generation in Never(s', e)
    ensures interrupted ==> s'.world == s.world && At(s', e) == Idle
    ensures !interrupted ==>
              && wid !in s.world.writes && wid in s'.world.writes
              && var p, record := At(s, e), s'.world.writes[wid].record;
                 && Sends(s, s', e, wid, record) && SameBut(s.world.log[p.version].record, record, p.generation)
                 && p.generation !in record.attempts
  {
  }

  /** The generation a step of `e` finds out was not submitted. */
  predicate FindsUnsubmitted(s: State, step: Step, e: nat, g: int)
    requires e in s.tenures
  {
    match At(s, e)
    case AwaitIntent(_, submit) => step == SUnconfirmed(e) && submit == Some(g)
    case Ready(_, h) => step == SPause(e) && h == g
    case Calling(_, h, _) => step.SNeverRan? && step.e == e && h == g
    case _ => false
  }

  /** The step after which `e` no longer counts `g` as never submitted: it calls Flink for it, or
      decides from a record that is past it. */
  ghost predicate Unmarks(s: State, step: Step, e: nat, g: int)
    requires e in s.tenures
  {
    match At(s, e)
    case Ready(_, h) => step == SCall(e) && h == g
    case Gathering(v, listed, _) =>
      && step.SDecide? && step.e == e && v < |s.world.log| && g < s.world.log[v].record.generation
      && listed.Some? && forall j :: j in listed.value ==> j.generation <= s.world.log[v].record.generation
    case _ => false
  }

  /** A generation is marked after a step if and only if the step found it unsubmitted, or it was
      marked already and the step neither submits it nor moves past it. */
  lemma MarksExactly(s: State, s': State, step: Step, e: nat, g: int)
    requires Inv(s) && Takes(s, s', step) && e in s.tenures
    ensures e in s'.tenures
    ensures g in Never(s', e) <==>
            FindsUnsubmitted(s, step, e, g) || (g in Never(s, e) && !Unmarks(s, step, e, g))
  {
    if step.SDecide? {
      MarksDecided(s, s', step, e, g);
    } else if step.SClaim? {
      assert TenureOk(s.world, e, s.tenures[e]);
    } else if step.SUnconfirmed? || step.SPause? || step.SCall? || step.SNeverRan? {
      MarksSubmitting(s, s', step, e, g);
    } else {
      MarksKept(s, s', step, e);
    }
  }

  lemma MarksDecided(s: State, s': State, step: Step, e: nat, g: int)
    requires Takes(s, s', step) && step.SDecide? && e in s.tenures
    ensures e in s'.tenures && !FindsUnsubmitted(s, step, e, g)
    ensures g in Never(s', e) <==> g in Never(s, e) && !Unmarks(s, step, e, g)
  {
  }

  lemma MarksSubmitting(s: State, s': State, step: Step, e: nat, g: int)
    requires Takes(s, s', step) && (step.SUnconfirmed? || step.SPause? || step.SCall? || step.SNeverRan?)
    requires e in s.tenures
    ensures e in s'.tenures
    ensures g in Never(s', e) <==>
            FindsUnsubmitted(s, step, e, g) || (g in Never(s, e) && !Unmarks(s, step, e, g))
  {
  }

  lemma MarksKept(s: State, s': State, step: Step, e: nat)
    requires Takes(s, s', step) && !step.SDecide? && !step.SClaim? && e in s.tenures
    requires !step.SUnconfirmed? && !step.SPause? && !step.SCall? && !step.SNeverRan?
    ensures e in s'.tenures && Never(s', e) == Never(s, e)
  {
  }

  /** A write processed is applied if and only if its epoch is the current one and nobody has written
      since the version it was decided from; then it is the record's next version. */
  lemma CommitsExactly(s: State, s': State, wid: nat)
    requires Commit(s, s', wid)
    ensures var w, w', write := s.world, s'.world, s.world.writes[wid];
            && s'.tenures == s.tenures && w'.outcomes.Keys == w.outcomes.Keys + {wid}
            && w' == w.(log := w'.log, outcomes := w'.outcomes)
            && if write.epoch == w.epoch && write.version == |w.log| - 1 then
                 w'.outcomes[wid] == Applied(|w.log|) && w'.log == w.log + [Entry(write.record, write.epoch)]
               else
                 w'.outcomes[wid] == Rejected && w'.log == w.log
  {
  }

  // --- an id, once recorded -------------------------------------------------------------------------

  /** Every id in `base` is still in `next`, unless its job is over. */
  ghost predicate IdsStay(jobs: map<JobId, Job>, base: map<int, Attempt>, next: map<int, Attempt>) {
    forall g, id :: Holds(base, g, id) ==> Holds(next, g, id) || (id in jobs && Over(jobs[id].fate))
  }

  /** No attempt is recorded ahead of the generation. */
  ghost predicate Bounded(record: Record) {
    forall g :: g in record.attempts ==> g <= record.generation
  }

  ghost predicate WriteStays(w: World, v: nat, record: Record) {
    v < |w.log| && Bounded(record) && IdsStay(w.jobs, w.log[v].record.attempts, record.attempts)
  }

  ghost predicate PhaseStays(w: World, p: Phase) {
    p.Acting? && p.write.Some? ==> WriteStays(w, p.version, p.write.value)
  }

  ghost predicate LogStays(w: World) {
    forall v :: 1 <= v < |w.log| ==> WriteStays(w, v - 1, w.log[v].record)
  }

  ghost predicate WritesStay(w: World) {
    forall wid :: wid in w.writes ==> WriteStays(w, w.writes[wid].version, w.writes[wid].record)
  }

  /** Every version keeps the ids of the one before it, and so does every record that could follow. */
  ghost predicate AllStay(s: State) {
    LogStays(s.world) && WritesStay(s.world) && forall e :: e in s.tenures ==> PhaseStays(s.world, At(s, e))
  }

  lemma WriteStaysOn(w: World, w': World, v: nat, record: Record)
    requires WriteStays(w, v, record) && w.log <= w'.log && JobsKept(w.jobs, w'.jobs)
    ensures WriteStays(w', v, record)
  {
  }

  lemma LogStaysOn(w: World, w': World)
    requires LogStays(w) && w'.log == w.log && JobsKept(w.jobs, w'.jobs)
    ensures LogStays(w')
  {
    forall v | 1 <= v < |w'.log|
      ensures WriteStays(w', v - 1, w'.log[v].record)
    {
      WriteStaysOn(w, w', v - 1, w.log[v].record);
    }
  }

  lemma BoundedAt(w: World, v: nat)
    requires LogOk(w.log) && LogStays(w) && v < |w.log|
    ensures Bounded(w.log[v].record)
  {
    if v != 0 {
      assert WriteStays(w, v - 1, w.log[v].record);
    }
  }

  lemma DecisionKeepsId(record: Record, listed: seq<Listed>, states: map<JobId, Answer>, mem: Mem,
                        now: real, wall: string, plan: Plan, mem': Mem, g: int, id: JobId)
    requires Completes(record, listed, states, mem, now, wall, plan, mem') && plan.record.Some? && Bounded(record)
    requires Holds(record.attempts, g, id)
    ensures Holds(plan.record.value.attempts, g, id) || Confirmed(states, id)
  {
    KeepsExactly(record, listed, states, mem, now, wall, plan, mem', g);
    var next := plan.record.value.attempts;
    if g !in next && g == record.generation {
      SubmitsExactly(record, listed, states, mem, now, wall, plan, mem');
    }
  }

  lemma DecisionBounded(record: Record, listed: seq<Listed>, states: map<JobId, Answer>, mem: Mem,
                        now: real, wall: string, plan: Plan, mem': Mem)
    requires Completes(record, listed, states, mem, now, wall, plan, mem') && plan.record.Some? && Bounded(record)
    ensures Bounded(plan.record.value)
  {
    forall g | g in plan.record.value.attempts
      ensures g <= plan.record.value.generation
    {
      KeepsExactly(record, listed, states, mem, now, wall, plan, mem', g);
    }
  }

  lemma DecidedStays(record: Record, listed: seq<Listed>, states: map<JobId, Answer>, mem: Mem, now: real,
                     wall: string, plan: Plan, mem': Mem, jobs: map<JobId, Job>)
    requires Completes(record, listed, states, mem, now, wall, plan, mem') && plan.record.Some? && Bounded(record)
    requires forall id :: id in states ==> id in jobs && (Over(states[id]) ==> Over(jobs[id].fate))
    ensures Bounded(plan.record.value) && IdsStay(jobs, record.attempts, plan.record.value.attempts)
  {
    DecisionBounded(record, listed, states, mem, now, wall, plan, mem');
    forall g, id | Holds(record.attempts, g, id)
      ensures Holds(plan.record.value.attempts, g, id) || (id in jobs && Over(jobs[id].fate))
    {
      DecisionKeepsId(record, listed, states, mem, now, wall, plan, mem', g, id);
    }
  }

  lemma DecisionStays(s: State, s': State, step: Step)
    requires Inv(s) && AllStay(s) && Takes(s, s', step) && step.SDecide?
    ensures PhaseStays(s'.world, At(s', step.e))
  {
    var p, e, plan, mem := At(s, step.e), step.e, step.plan, s.tenures[step.e].mem;
    assert TenureOk(s.world, e, s.tenures[e]);
    BoundedAt(s.world, p.version);
    if plan.record.Some? {
      DecidedStays(s.world.log[p.version].record, p.listed.value, p.states, mem, step.now, step.wall, plan, step.mem,
                   s.world.jobs);
    }
  }

  lemma SameButStays(jobs: map<JobId, Job>, base: Record, next: Record, g: int)
    requires SameBut(base, next, g) && Bounded(base) && (g in next.attempts ==> g in base.attempts)
    requires forall id :: Holds(base.attempts, g, id) ==> Holds(next.attempts, g, id)
    ensures Bounded(next) && IdsStay(jobs, base.attempts, next.attempts)
  {
    forall h, id | Holds(base.attempts, h, id)
      ensures Holds(next.attempts, h, id)
    {
      if h != g {
        assert h in next.attempts;
      }
    }
  }

  /** Only the job of its own submission can be recorded where a calling tenure is about to write. */
  lemma CallingHolds(s: State, e: nat, id: JobId)
    requires Inv(s) && e in s.tenures && At(s, e).Calling? && At(s, e).version < |s.world.log|
    requires Holds(s.world.log[At(s, e).version].record.attempts, At(s, e).generation, id)
    ensures At(s, e).ran && At(s, e).generation in s.world.submissions
    ensures s.world.submissions[At(s, e).generation] == Landed(id)
  {
    assert TenureOk(s.world, e, s.tenures[e]);
    assert IdsTrue(s.world.jobs, s.world.log[At(s, e).version].record.attempts);
  }

  lemma ReturnedStays(s: State, s': State, e: nat, wid: nat)
    requires Inv(s) && AllStay(s) && Returned(s, s', e, wid)
    ensures var write := s'.world.writes[wid]; WriteStays(s'.world, write.version, write.record)
  {
    var p := At(s, e);
    var base := s.world.log[p.version].record;
    BoundedAt(s.world, p.version);
    ReturnedSends(s, s', e, wid);
    forall id | Holds(base.attempts, p.generation, id)
      ensures Holds(s'.world.writes[wid].record.attempts, p.generation, id)
    {
      CallingHolds(s, e, id);
    }
    SameButStays(s.world.jobs, base, s'.world.writes[wid].record, p.generation);
  }

  lemma NeverRanStays(s: State, s': State, e: nat, wid: nat)
    requires Inv(s) && AllStay(s) && NeverRan(s, s', e, wid, false)
    ensures var write := s'.world.writes[wid]; WriteStays(s'.world, write.version, write.record)
  {
    var p := At(s, e);
    var base := s.world.log[p.version].record;
    BoundedAt(s.world, p.version);
    NeverRanSends(s, s', e, wid, false);
    forall id
      ensures !Holds(base.attempts, p.generation, id)
    {
      if Holds(base.attempts, p.generation, id) {
        CallingHolds(s, e, id);
      }
    }
    SameButStays(s.world.jobs, base, s'.world.writes[wid].record, p.generation);
  }

  /** A step of one tenure, with whatever it sends. */
  lemma KeeperStays(s: State, s': State, e: nat)
    requires AllStay(s) && OnlyMoves(s, s', e) && s'.world.log == s.world.log && s'.world.jobs == s.world.jobs
    requires forall i :: i in s'.world.writes ==>
               || (i in s.world.writes && s'.world.writes[i] == s.world.writes[i])
               || WriteStays(s'.world, s'.world.writes[i].version, s'.world.writes[i].record)
    requires e in s'.tenures ==> PhaseStays(s'.world, At(s', e))
    ensures AllStay(s')
  {
    LogStaysOn(s.world, s'.world);
    forall i | i in s'.world.writes
      ensures WriteStays(s'.world, s'.world.writes[i].version, s'.world.writes[i].record)
    {
      if i in s.world.writes && s'.world.writes[i] == s.world.writes[i] {
        WriteStaysOn(s.world, s'.world, s.world.writes[i].version, s.world.writes[i].record);
      }
    }
    forall o | o in s'.tenures
      ensures PhaseStays(s'.world, At(s', o))
    {
      var p := At(s, o);
      if o != e && p.Acting? && p.write.Some? {
        WriteStaysOn(s.world, s'.world, p.version, p.write.value);
      }
    }
  }

  /** A step that sends no write, keeps the record and only lets jobs move on. */
  lemma WorldStays(s: State, s': State)
    requires AllStay(s) && s'.world.log == s.world.log && s'.world.writes == s.world.writes
    requires JobsKept(s.world.jobs, s'.world.jobs)
    requires forall o :: o in s'.tenures && At(s', o).Acting? ==> o in s.tenures && At(s', o) == At(s, o)
    ensures AllStay(s')
  {
    LogStaysOn(s.world, s'.world);
    forall i | i in s'.world.writes
      ensures WriteStays(s'.world, s'.world.writes[i].version, s'.world.writes[i].record)
    {
      WriteStaysOn(s.world, s'.world, s.world.writes[i].version, s.world.writes[i].record);
    }
    forall o | o in s'.tenures
      ensures PhaseStays(s'.world, At(s', o))
    {
      var p := At(s', o);
      if p.Acting? && p.write.Some? {
        WriteStaysOn(s.world, s'.world, p.version, p.write.value);
      }
    }
  }

  lemma CommitStays(s: State, s': State, wid: nat)
    requires AllStay(s) && Commit(s, s', wid)
    ensures AllStay(s')
  {
    var w, w' := s.world, s'.world;
    CommitsExactly(s, s', wid);
    forall v: nat, record | WriteStays(w, v, record)
      ensures WriteStays(w', v, record)
    {
      WriteStaysOn(w, w', v, record);
    }
    forall v | 1 <= v < |w'.log|
      ensures WriteStays(w', v - 1, w'.log[v].record)
    {
      if v < |w.log| {
        assert WriteStays(w, v - 1, w.log[v].record);
      } else {
        assert WriteStays(w, w.writes[wid].version, w.writes[wid].record);
      }
    }
  }

  lemma IssueStays(s: State, s': State, e: nat, wid: nat)
    requires AllStay(s) && Issue(s, s', e, wid)
    ensures AllStay(s')
  {
    assert PhaseStays(s.world, At(s, e));
    KeeperStays(s, s', e);
  }

  lemma ReturnedAllStay(s: State, s': State, e: nat, wid: nat)
    requires Inv(s) && AllStay(s) && Returned(s, s', e, wid)
    ensures AllStay(s')
  {
    ReturnedStays(s, s', e, wid);
    KeeperStays(s, s', e);
  }

  lemma NeverRanAllStay(s: State, s': State, e: nat, wid: nat)
    requires Inv(s) && AllStay(s) && NeverRan(s, s', e, wid, false)
    ensures AllStay(s')
  {
    NeverRanStays(s, s', e, wid);
    KeeperStays(s, s', e);
  }

  lemma ActingStays(s: State, s': State, step: Step)
    requires Inv(s) && AllStay(s) && Takes(s, s', step) && (step.SDecide? || step.SCancel?)
    ensures AllStay(s')
  {
    if step.SDecide? {
      DecisionStays(s, s', step);
    } else {
      assert PhaseStays(s.world, At(s, step.e));
    }
    KeeperStays(s, s', step.e);
  }

  /** The steps at which a keeper neither decides, cancels nor writes. */
  lemma QuietStays(s: State, s': State, step: Step)
    requires AllStay(s) && Takes(s, s', step)
    requires !step.SDecide? && !step.SCancel? && !step.SIssue? && !step.SReturned? && !step.SCommit?
    requires step.SNeverRan? ==> step.interrupted
    ensures AllStay(s')
  {
    assert s'.world.log == s.world.log && s'.world.writes == s.world.writes;
    QuietJobs(s, s', step);
    QuietPhases(s, s', step);
    WorldStays(s, s');
  }

  lemma QuietJobs(s: State, s': State, step: Step)
    requires Takes(s, s', step)
    ensures JobsKept(s.world.jobs, s'.world.jobs)
  {
    if !step.SLand? && !step.SJob? {
      assert s'.world.jobs == s.world.jobs;
    }
  }

  lemma QuietPhases(s: State, s': State, step: Step)
    requires Takes(s, s', step) && !step.SDecide? && !step.SCancel?
    ensures forall o :: o in s'.tenures && At(s', o).Acting? ==> o in s.tenures && At(s', o) == At(s, o)
  {
  }

  lemma StaysKept(s: State, s': State, step: Step)
    requires Inv(s) && AllStay(s) && Takes(s, s', step)
    ensures AllStay(s')
  {
    if step.SDecide? || step.SCancel? {
      ActingStays(s, s', step);
    } else if step.SIssue? {
      IssueStays(s, s', step.e, step.wid);
    } else if step.SReturned? {
      ReturnedAllStay(s, s', step.e, step.wid);
    } else if step.SNeverRan? && !step.interrupted {
      NeverRanAllStay(s, s', step.e, step.wid);
    } else if step.SCommit? {
      CommitStays(s, s', step.wid);
    } else {
      QuietStays(s, s', step);
    }
  }

  lemma {:induction false} StaysReached(b: seq<State>, i: nat)
    requires Behavior(b) && i < |b|
    ensures AllStay(b[i])
  {
    if i != 0 {
      StaysReached(b, i - 1);
      Reached(b, i - 1);
      assert Linked(b, i - 1);
      var step :| Takes(b[i - 1], b[i], step);
      StaysKept(b[i - 1], b[i], step);
    }
  }

  lemma {:induction false} StaysAlong(w: World, u: nat, v: nat, g: int, id: JobId)
    requires LogStays(w) && u <= v < |w.log| && Holds(w.log[u].record.attempts, g, id)
    ensures Holds(w.log[v].record.attempts, g, id) || (id in w.jobs && Over(w.jobs[id].fate))
    decreases v
  {
    if u < v {
      StaysAlong(w, u, v - 1, g, id);
      assert WriteStays(w, v - 1, w.log[v].record);
    }
  }

  /** An id, once recorded, is in every later version of the record for as long as its job is not
      over. */
  lemma IdStaysRecorded(b: seq<State>, i: nat, u: nat, v: nat, g: int, id: JobId)
    requires Behavior(b) && i < |b| && u <= v < |b[i].world.log| && Holds(b[i].world.log[u].record.attempts, g, id)
    ensures id in b[i].world.jobs
    ensures Holds(b[i].world.log[v].record.attempts, g, id) || Over(b[i].world.jobs[id].fate)
  {
    StaysReached(b, i);
    RecordedIdsAreTrue(b, i, u, g, id);
    StaysAlong(b[i].world, u, v, g, id);
  }

  /** A submission that returns is recorded: once its write is applied, the record holds the id of the
      job that landed, and every later version does until that job is over. */
  lemma SubmittedIsRecorded(b: seq<State>, i: nat, j: nat, e: nat, wid: nat, v: nat, u: nat)
    requires Behavior(b) && i < j < |b| && Returned(b[i], b[i + 1], e, wid)
    requires wid in b[j].world.outcomes && b[j].world.outcomes[wid] == Applied(v) && v <= u < |b[j].world.log|
    ensures var p := At(b[i], e);
            && b[i].world.submissions[p.generation].Landed?
            && var id, log := b[i].world.submissions[p.generation].id, b[j].world.log;
               && CreatedBy(log, p.version, p.generation, e) && v == p.version + 1 && log[v].author == e
               && id in b[j].world.jobs && b[j].world.jobs[id].generation == p.generation
               && Holds(log[v].record.attempts, p.generation, id)
               && SameBut(log[p.version].record, log[v].record, p.generation)
               && (Holds(log[u].record.attempts, p.generation, id) || Over(b[j].world.jobs[id].fate))
  {
    var p := At(b[i], e);
    ReturnedSends(b[i], b[i + 1], e, wid);
    WrittenAs(b, i + 1, j, wid, v);
    Reached(b, i);
    assert TenureOk(b[i].world, e, b[i].tenures[e]);
    LaterAlong(b, i, j);
    IdStaysRecorded(b, j, v, u, p.generation, b[i].world.submissions[p.generation].id);
  }

  /** What is applied is what was sent, over the version it was sent for. */
  lemma WrittenAs(b: seq<State>, i: nat, j: nat, wid: nat, v: nat)
    requires Behavior(b) && i <= j < |b| && wid in b[i].world.writes
    requires wid in b[j].world.outcomes && b[j].world.outcomes[wid] == Applied(v)
    ensures var write := b[i].world.writes[wid];
            v == write.version + 1 < |b[j].world.log| && b[j].world.log[v] == Entry(write.record, write.epoch)
  {
    LaterAlong(b, i, j);
    Reached(b, j);
  }

  /** A submission that never ran leaves no trace: it is marked, and once its write is applied the
      attempt is not in the record. */
  lemma NeverRanIsStruckOff(b: seq<State>, i: nat, j: nat, e: nat, wid: nat, v: nat)
    requires Behavior(b) && i < j < |b| && NeverRan(b[i], b[i + 1], e, wid, false)
    requires wid in b[j].world.outcomes && b[j].world.outcomes[wid] == Applied(v)
    ensures var p, log := At(b[i], e), b[j].world.log;
            && CreatedBy(log, p.version, p.generation, e) && v == p.version + 1 < |log| && log[v].author == e
            && p.generation !in log[v].record.attempts
            && SameBut(log[p.version].record, log[v].record, p.generation)
  {
    NeverRanSends(b[i], b[i + 1], e, wid, false);
    WrittenAs(b, i + 1, j, wid, v);
    Reached(b, i);
    assert TenureOk(b[i].world, e, b[i].tenures[e]);
    LaterAlong(b, i, j);
  }

  // --- a plan, carried out ---------------------------------------------------------------------------

  /** `e` has carried out the first `n` cancels of `plan`, and has nothing else on its hands. */
  predicate CarriesOut(s: State, e: nat, v: nat, plan: Plan, n: nat) {
    && e in s.tenures && n <= |plan.cancel|
    && At(s, e) == Acting(v, plan.cancel[n..],
                          if plan.record.Some? then Some(plan.record.value.(epoch := Some(e))) else None, plan.submit)
    && forall k :: 0 <= k < n ==> plan.cancel[k] in s.world.cancelled
  }

  lemma OnlyCancelsAmid(s: State, s': State, step: Step, e: nat)
    requires Takes(s, s', step) && step != SCancel(e) && e in s.tenures && At(s, e).Acting? && e <= s.world.epoch
    requires e in s'.tenures && At(s', e).Acting?
    ensures At(s', e) == At(s, e)
  {
  }

  lemma CancelledStays(s: State, s': State, step: Step)
    requires Takes(s, s', step)
    ensures s.world.cancelled <= s'.world.cancelled
  {
  }

  lemma CarriesOn(s: State, s': State, step: Step, e: nat, v: nat, plan: Plan, n: nat) returns (n': nat)
    requires Inv(s) && Takes(s, s', step) && CarriesOut(s, e, v, plan, n) && e in s'.tenures && At(s', e).Acting?
    ensures CarriesOut(s', e, v, plan, n')
  {
    CancelledStays(s, s', step);
    if step == SCancel(e) {
      n' := n + 1;
    } else {
      n' := n;
      assert TenureOk(s.world, e, s.tenures[e]);
      OnlyCancelsAmid(s, s', step, e);
    }
  }

  lemma PlanBegins(s: State, s': State, step: Step)
    requires step.SDecide? && Takes(s, s', step)
    ensures CarriesOut(s', step.e, At(s, step.e).version, step.plan, 0)
  {
  }

  /** For as long as a tenure is acting on its decision, it cancels the plan's jobs in order and
      changes neither the record to write nor the generation to submit. */
  lemma {:induction false} PlanCarriedOut(b: seq<State>, i: nat, j: nat, e: nat, v: nat, plan: Plan) returns (n: nat)
    requires Behavior(b) && i <= j < |b| && CarriesOut(b[i], e, v, plan, 0)
    requires forall k :: i <= k <= j ==> e in b[k].tenures && At(b[k], e).Acting?
    ensures CarriesOut(b[j], e, v, plan, n)
    decreases j
  {
    if i == j {
      n := 0;
    } else {
      var m := PlanCarriedOut(b, i, j - 1, e, v, plan);
      n := CarriesOnAt(b, j - 1, e, v, plan, m);
    }
  }

  lemma CarriesOnAt(b: seq<State>, i: nat, e: nat, v: nat, plan: Plan, n: nat) returns (n': nat)
    requires Behavior(b) && i + 1 < |b| && CarriesOut(b[i], e, v, plan, n)
    requires e in b[i + 1].tenures && At(b[i + 1], e).Acting?
    ensures CarriesOut(b[i + 1], e, v, plan, n')
  {
    Reached(b, i);
    assert Linked(b, i);
    var step :| Takes(b[i], b[i + 1], step);
    n' := CarriesOn(b[i], b[i + 1], step, e, v, plan, n);
  }

  /** Cancels come before the write, and the write is the one decided: signed with the tenure's own
      epoch, over the version the decision was made from. */
  lemma CancelsPrecedeWrite(b: seq<State>, i: nat, j: nat, e: nat, step: Step, wid: nat)
    requires Behavior(b) && i < j && j + 1 < |b| && step.SDecide? && step.e == e && Takes(b[i], b[i + 1], step)
    requires forall k :: i < k <= j ==> e in b[k].tenures && At(b[k], e).Acting?
    requires Issue(b[j], b[j + 1], e, wid)
    ensures forall id :: id in step.plan.cancel ==> id in b[j].world.cancelled
    ensures step.plan.record.Some? && wid in b[j + 1].world.writes
    ensures b[j + 1].world.writes[wid] == Write(e, step.plan.record.value.(epoch := Some(e)), At(b[i], e).version)
    ensures e in b[j + 1].tenures && At(b[j + 1], e) == AwaitIntent(wid, step.plan.submit)
  {
    PlanBegins(b[i], b[i + 1], step);
    var n := PlanCarriedOut(b, i + 1, j, e, At(b[i], e).version, step.plan);
    forall id | id in step.plan.cancel
      ensures id in b[j].world.cancelled
    {
      var k :| 0 <= k < |step.plan.cancel| && step.plan.cancel[k] == id;
      assert k < n;
    }
  }

  // --- a superseded job can be cancelled ---------------------------------------------------------------

  /** A cycle that was told of one superseded job, still going, decides to cancel it and no other. */
  lemma CancelDecided(record: Record, g: int, id: JobId, answer: Answer, mem: Mem, now: real)
    returns (plan: Plan, mem': Mem)
    requires g < record.generation && Holds(record.attempts, g, id) && StillGoing(answer)
    ensures Decides(record, Some([]), map[id := answer], mem, now, "", plan, mem') && plan.cancel == [id]
  {
    var current, states := record.generation, map[id := answer];
    var attempts, v := Owing(record, [], states, mem.neverSubmitted), KeeperTakeover.Judged(record, states, mem, now);
    var advance := Advances(v, current, now);
    var next := JobKeeper.Next(record, attempts, v, advance, "");
    OnlyThisOne(record, g, id, answer);
    var unresolved := KeeperTakeover.SortedExists(WithoutId(next.attempts));
    var jobId := if current in attempts then attempts[current].jobId else None;
    var state := if current != 0 && jobId.Some? && jobId.value in states then Some(states[jobId.value]) else None;
    plan := Plan([id], if next != record then Some(next) else None, if advance then Some(current + 1) else None,
                 Report(current, StatusOf(v, advance), jobId, state, [id], unresolved));
    mem' := Mem(FirstSeenAfter(record, Some([]), states, mem, now), set h | h in mem.neverSubmitted && h >= current);
  }

  lemma OnlyThisOne(record: Record, g: int, id: JobId, answer: Answer)
    requires g < record.generation && Holds(record.attempts, g, id) && StillGoing(answer)
    ensures Cancels([id], Resolve(record.attempts, []), [], map[id := answer], record.generation)
  {
    var resolved := Resolve(record.attempts, []);
    var m := KeeperTakeover.SupersededExists(resolved, record.generation);
    assert Holds(resolved, g, id);
    assert RecordedBelow(resolved, record.generation, id);
    assert CancelsAmong([id], m, map[id := answer], m.Keys);
  }

  /** From every state a run can reach, a tenure about to start a cycle can cancel any recorded job of
      an earlier generation that is still going, and in that cycle cancels no other. */
  lemma SupersededCanBeCancelled(b: seq<State>, e: nat, g: int, id: JobId) returns (b': seq<State>)
    requires Behavior(b)
    requires var s := KeeperTakeover.Last(b);
             && e in s.tenures && At(s, e) == Idle && s.world.log != []
             && g < Current(s.world.log).generation && Holds(Current(s.world.log).attempts, g, id)
             && id in s.world.jobs && StillGoing(s.world.jobs[id].fate)
    ensures Behavior(b') && b <= b'
    ensures var s, s' := KeeperTakeover.Last(b), KeeperTakeover.Last(b');
            s'.world == s.world.(cancelled := s.world.cancelled + {id})
  {
    var s := KeeperTakeover.Last(b);
    var mem, fate, v := s.tenures[e].mem, s.world.jobs[id].fate, |s.world.log| - 1;
    b' := Asks(b, e, id);
    var plan, mem' := CancelDecided(Current(s.world.log), g, id, fate, mem, 0.0);
    var s1 := KeeperTakeover.Move(s, e, Tenure(Acting(v, [id], Signed(plan.record, e), plan.submit), mem'));
    KeeperTakeover.Extend(b', s1, SDecide(e, 0.0, "", plan, mem'));
    b' := b' + [s1];
    b' := CancelsNext(b', e, id);
  }

  /** It reads, lists, and asks about the one job. */
  lemma Asks(b: seq<State>, e: nat, id: JobId) returns (b': seq<State>)
    requires Behavior(b)
    requires var s := KeeperTakeover.Last(b);
             && e in s.tenures && At(s, e) == Idle && s.world.log != [] && id in s.world.jobs
             && LookupNeeded(Current(s.world.log), [], id)
    ensures Behavior(b') && b <= b'
    ensures var s := KeeperTakeover.Last(b);
            KeeperTakeover.Last(b') ==
            KeeperTakeover.Move(s, e, Tenure(Gathering(|s.world.log| - 1, Some([]), map[id := s.world.jobs[id].fate]),
                                             s.tenures[e].mem))
  {
    var s := KeeperTakeover.Last(b);
    var mem, v := s.tenures[e].mem, |s.world.log| - 1;
    var s1 := KeeperTakeover.Move(s, e, Tenure(Reading(v), mem));
    KeeperTakeover.Extend(b, s1, SRead(e));
    var s2 := KeeperTakeover.Move(s, e, Tenure(Gathering(v, Some([]), map[]), mem));
    KeeperTakeover.Extend(b + [s1], s2, SList(e, Some([])));
    var s3 := KeeperTakeover.Move(s, e, Tenure(Gathering(v, Some([]), map[id := s.world.jobs[id].fate]), mem));
    KeeperTakeover.Extend(b + [s1] + [s2], s3, SLookup(e, id));
    b' := b + [s1] + [s2] + [s3];
  }

  lemma CancelsNext(b: seq<State>, e: nat, id: JobId) returns (b': seq<State>)
    requires Behavior(b)
    requires var s := KeeperTakeover.Last(b); e in s.tenures && At(s, e).Acting? && At(s, e).cancel == [id]
    ensures Behavior(b') && b <= b'
    ensures var s, s' := KeeperTakeover.Last(b), KeeperTakeover.Last(b');
            s'.world == s.world.(cancelled := s.world.cancelled + {id})
  {
    var s := KeeperTakeover.Last(b);
    assert [id][1..] == [];
    var s' := Go(s, e, At(s, e).(cancel := [])).(world := s.world.(cancelled := s.world.cancelled + {id}));
    KeeperTakeover.Extend(b, s', SCancel(e));
    b' := b + [s'];
  }
}
