/** Safety of the keeper protocol over every run: src/pipeline/job_keeper.py.

    Everything follows from one inductive invariant (`KeeperProtocol.Inv`), kept by each of
    the nineteen steps; `KeeperTheorems` reads it off over whole behaviours. */
module KeeperSafety {
  import opened Basics
  import opened JobKeeper
  import opened KeeperProtocol

  // --- what a decision can do to the record -------------------------------------------

  /** Why an attempt may leave the record: its job is confirmed over, or it is the current
      generation, has no id, and is marked never submitted. */
  ghost predicate MayLeave(record: Record, listed: seq<Listed>, states: map<JobId, Answer>, never: set<int>, g: int) {
    var attempts := Resolve(record.attempts, listed);
    || (exists id :: Holds(attempts, g, id) && Confirmed(states, id))
    || (g == record.generation && g in attempts && attempts[g].jobId.None? && g in never)
  }

  /** Where an id in the decided record comes from. */
  ghost predicate IdSource(record: Record, listed: seq<Listed>, g: int, id: JobId) {
    Holds(record.attempts, g, id) || exists j :: j in listed && j.id == id && j.generation == g
  }

  lemma ResolvedSource(record: Record, listed: seq<Listed>, g: int, id: JobId)
    requires Holds(Resolve(record.attempts, listed), g, id)
    ensures IdSource(record, listed, g, id)
  {
  }

  lemma DecisionRecord(record: Record, listed: Option<seq<Listed>>, states: map<JobId, Answer>, mem: Mem,
                       now: real, wall: string, plan: Plan, mem': Mem)
    requires Decides(record, listed, states, mem, now, wall, plan, mem')
    ensures mem'.neverSubmitted <= mem.neverSubmitted
    ensures plan.record.None? ==> plan.submit.None?
    ensures plan.record.Some? ==>
      var next := plan.record.value;
      && listed.Some?
      && next.generation == record.generation + (if plan.submit.Some? then 1 else 0)
      && (plan.submit.Some? ==> plan.submit.value == next.generation && next.generation in next.attempts)
      && (forall g :: g in record.attempts && g !in next.attempts ==>
            MayLeave(record, listed.value, states, mem.neverSubmitted, g))
      && (forall g, id :: Holds(next.attempts, g, id) ==> IdSource(record, listed.value, g, id))
  {
    if plan.record.Some? {
      var next := plan.record.value;
      var resolved := Resolve(record.attempts, listed.value);
      var owing := Owing(record, listed.value, states, mem.neverSubmitted);
      forall g | g in record.attempts && g !in next.attempts
        ensures MayLeave(record, listed.value, states, mem.neverSubmitted, g)
      {
        assert g in resolved;
        if g in owing {
          assert g == record.generation;
          assert Holds(resolved, g, owing[g].jobId.value);
        }
      }
      forall g, id | Holds(next.attempts, g, id)
        ensures IdSource(record, listed.value, g, id)
      {
        assert Holds(resolved, g, id);
        ResolvedSource(record, listed.value, g, id);
      }
    }
  }

  lemma DecisionCancels(record: Record, listed: Option<seq<Listed>>, states: map<JobId, Answer>, mem: Mem,
                        now: real, wall: string, plan: Plan, mem': Mem, id: JobId)
    requires Decides(record, listed, states, mem, now, wall, plan, mem')
    requires id in plan.cancel
    ensures listed.Some? && exists g :: g < record.generation && IdSource(record, listed.value, g, id)
  {
    var resolved := Resolve(record.attempts, listed.value);
    if RecordedBelow(resolved, record.generation, id) {
      var g :| g < record.generation && Holds(resolved, g, id);
      ResolvedSource(record, listed.value, g, id);
    } else {
      var g := ListedBelow(listed.value, record.generation, id).value;
      assert IdSource(record, listed.value, g, id);
    }
  }

  // --- consequences of the log's shape --------------------------------------------------

  lemma {:induction false} GenMonotone(log: seq<Entry>, u: nat, v: nat)
    requires LogOk(log) && u <= v < |log|
    ensures Gen(log, u) <= Gen(log, v)
    decreases v
  {
    if u < v {
      GenMonotone(log, u, v - 1);
      assert StepsByOne(Gen(log, v - 1), Gen(log, v));
    }
  }

  lemma CreatorUnique(log: seq<Entry>, u: nat, v: nat, g: int)
    requires LogOk(log) && Creates(log, u, g) && Creates(log, v, g)
    ensures u == v
  {
    if u < v {
      GenMonotone(log, u, v - 1);
    } else if v < u {
      GenMonotone(log, v, u - 1);
    }
  }

  /** Whoever may run a generation is the tenure that brought it in. */
  lemma RunnerIsCreator(w: World, e: nat, t: Tenure, g: int) returns (v: nat)
    requires WorldOk(w) && TenureOk(w, e, t) && MayRun(w.outcomes, t.phase, g)
    ensures CreatedBy(w.log, v, g, e)
  {
    match t.phase
    case Ready(u, _) => v := u;
    case Calling(u, _, _) => v := u;
    case AwaitIntent(wid, _) => v := w.outcomes[wid].version;
  }

  // --- tenures that take no step keep their invariant --------------------------------------

  ghost predicate JobsKept(jobs: map<JobId, Job>, jobs': map<JobId, Job>) {
    forall id :: id in jobs ==>
      id in jobs' && jobs'[id].generation == jobs[id].generation && (Over(jobs[id].fate) ==> Over(jobs'[id].fate))
  }

  ghost predicate NotBroughtInBy(log: seq<Entry>, g: int, e: nat) {
    exists v: nat :: Creates(log, v, g) && log[v].author != e
  }

  /** How the world may change around tenure `e` while it stands still. */
  ghost predicate Around(w: World, w': World, e: nat) {
    && w.log <= w'.log && w.epoch <= w'.epoch
    && (forall u :: |w.log| <= u < |w'.log| ==> w'.log[u].author == w'.epoch == w.epoch)
    && (forall wid :: wid in w.writes ==> wid in w'.writes && w'.writes[wid] == w.writes[wid])
    && (forall g :: g in w.calls ==> g in w'.calls && w'.calls[g] == w.calls[g])
    && (forall g :: g in w'.calls && g !in w.calls ==> w'.calls[g].epoch != e)
    && (forall g :: g in w.submissions ==> g in w'.submissions)
    && (forall g :: g in w'.submissions && g !in w.submissions ==> NotBroughtInBy(w.log, g, e))
    && JobsKept(w.jobs, w'.jobs)
  }

  lemma MarksStable(w: World, w': World, e: nat, never: set<int>)
    requires 1 <= e <= w.epoch && MarksOk(w, e, never) && Around(w, w', e)
    ensures MarksOk(w', e, never)
  {
  }

  lemma BaseStable(w: World, w': World, e: nat, v: nat)
    requires 1 <= e <= w.epoch && BaseOk(w, e, v) && Around(w, w', e)
    ensures BaseOk(w', e, v) && Gen(w'.log, v) == Gen(w.log, v)
  {
  }

  /** What was seen of Flink stays true of it. */
  lemma SeenStable(jobs: map<JobId, Job>, jobs': map<JobId, Job>, listed: Option<seq<Listed>>,
                   states: map<JobId, Answer>)
    requires JobsKept(jobs, jobs') && (listed.Some? ==> Truthful(jobs, listed.value))
    requires forall id :: id in states ==> id in jobs && (Over(states[id]) ==> Over(jobs[id].fate))
    ensures listed.Some? ==> Truthful(jobs', listed.value)
    ensures forall id :: id in states ==> id in jobs' && (Over(states[id]) ==> Over(jobs'[id].fate))
  {
  }

  lemma PlanStable(jobs: map<JobId, Job>, jobs': map<JobId, Job>, cancel: seq<JobId>, g: int, write: Option<Record>)
    requires JobsKept(jobs, jobs') && (write.Some? ==> IdsTrue(jobs, write.value.attempts))
    requires forall id :: id in cancel ==> id in jobs && jobs[id].generation < g
    ensures forall id :: id in cancel ==> id in jobs' && jobs'[id].generation < g
    ensures write.Some? ==> IdsTrue(jobs', write.value.attempts)
  {
  }

  lemma PhaseStable(w: World, w': World, e: nat, p: Phase, never: set<int>)
    requires LogOk(w.log) && 1 <= e <= w.epoch && PhaseOk(w, e, p, never) && Around(w, w', e)
    ensures PhaseOk(w', e, p, never)
  {
    match p
    case Idle =>
    case Retired =>
    case AwaitResult(_) =>
    case Reading(v) => BaseStable(w, w', e, v);
    case Gathering(v, listed, states) =>
      BaseStable(w, w', e, v);
      SeenStable(w.jobs, w'.jobs, listed, states);
    case Acting(v, cancel, write, _) =>
      BaseStable(w, w', e, v);
      PlanStable(w.jobs, w'.jobs, cancel, Gen(w.log, v), write);
    case AwaitIntent(wid, _) => BaseStable(w, w', e, w.writes[wid].version);
    case Ready(v, g) => assert CreatedBy(w'.log, v, g, e);
    case Calling(v, g, _) =>
      assert CreatedBy(w'.log, v, g, e);
      if NotBroughtInBy(w.log, g, e) {
        var u: nat :| Creates(w.log, u, g) && w.log[u].author != e;
        CreatorUnique(w.log, u, v, g);
      }
  }

  lemma TenureStable(w: World, w': World, e: nat, t: Tenure)
    requires LogOk(w.log) && TenureOk(w, e, t) && Around(w, w', e)
    ensures TenureOk(w', e, t)
  {
    MarksStable(w, w', e, t.mem.neverSubmitted);
    PhaseStable(w, w', e, t.phase, t.mem.neverSubmitted);
  }

  /** Only tenure `e` moved, and the others saw nothing they mind. */
  ghost predicate OnlyMoves(s: State, s': State, e: nat) {
    && s'.tenures.Keys == s.tenures.Keys
    && (forall o :: o in s.tenures && o != e ==> s'.tenures[o] == s.tenures[o])
  }

  /** Every other tenure's world only moved on around it. */
  ghost predicate OthersAround(s: State, s': State, e: nat) {
    forall o :: o in s.tenures && o != e ==> Around(s.world, s'.world, o)
  }

  lemma OthersStable(s: State, s': State, e: nat)
    requires WorldOk(s.world) && TenuresOk(s) && OnlyMoves(s, s', e)
    requires OthersAround(s, s', e)
    requires e in s.tenures ==> TenureOk(s'.world, e, s'.tenures[e])
    ensures TenuresOk(s')
  {
    forall o | o in s'.tenures && o != e
      ensures TenureOk(s'.world, o, s'.tenures[o])
    {
      TenureStable(s.world, s'.world, o, s.tenures[o]);
    }
  }

  // --- owed work only grows when the record does ---------------------------------------------

  /** Nothing new is owed: what ran in between could already have run. */
  ghost predicate OwesNoMore(s: State, s': State) {
    && (forall g :: g in s'.world.submissions ==> g in s.world.submissions || MayBeRun(s, g))
    && (forall g :: Settled(s.world.submissions, s.world.jobs, g) ==> Settled(s'.world.submissions, s'.world.jobs, g))
    && (forall g :: MayBeRun(s', g) ==> MayBeRun(s, g))
  }

  lemma CoversStable(s: State, s': State, attempts: map<int, Attempt>)
    requires OwesNoMore(s, s') && Covers(s, attempts)
    ensures Covers(s', attempts)
  {
  }

  /** A step that leaves the log alone, moves at most tenure `e`, and issues at most write `wid`. */
  lemma OwedStable(s: State, s': State, e: nat, wid: nat)
    requires OwedOk(s) && OwesNoMore(s, s')
    requires s'.world.log == s.world.log && s'.world.epoch == s.world.epoch
    requires forall i :: i in s'.world.writes && i != wid ==>
               i in s.world.writes && s'.world.writes[i] == s.world.writes[i]
    requires forall i :: i in s.world.outcomes ==> i in s'.world.outcomes
    requires OnlyMoves(s, s', e)
    requires WriteCovered(s', wid) && ActingCovered(s', e)
    ensures OwedOk(s')
  {
    CoversStable(s, s', Current(s.world.log).attempts);
    forall i
      ensures WriteCovered(s', i)
    {
      if i != wid && i in s'.world.writes && i !in s'.world.outcomes && Appliable(s'.world, s'.world.writes[i]) {
        assert WriteCovered(s, i);
        CoversStable(s, s', s.world.writes[i].record.attempts);
      }
    }
    forall o
      ensures ActingCovered(s', o)
    {
      if o != e && o in s.tenures && s.tenures[o].phase.Acting? && s.tenures[o].phase.write.Some? {
        var p := s.tenures[o].phase;
        if Appliable(s.world, Write(o, p.write.value, p.version)) {
          assert ActingCovered(s, o);
          CoversStable(s, s', p.write.value.attempts);
        }
      }
    }
  }

  // --- each step keeps the invariant ------------------------------------------------------------

  lemma ClaimTenures(s: State, s': State)
    requires Inv(s) && Claim(s, s')
    ensures TenuresOk(s') && s'.world.epoch !in s.tenures
  {
    forall o | o in s.tenures
      ensures o != s'.world.epoch && TenureOk(s'.world, o, s.tenures[o])
    {
      TenureStable(s.world, s'.world, o, s.tenures[o]);
    }
  }

  lemma ClaimKeeps(s: State, s': State)
    requires Inv(s) && Claim(s, s')
    ensures Inv(s')
  {
    ClaimTenures(s, s');
    assert OwesNoMore(s, s') by {
      forall g | MayBeRun(s', g)
        ensures MayBeRun(s, g)
      {
        var o :| o in s'.tenures && MayRun(s'.world.outcomes, s'.tenures[o].phase, g);
        assert o in s.tenures && MayRun(s.world.outcomes, s.tenures[o].phase, g);
      }
    }
    CoversStable(s, s', Current(s.world.log).attempts);
    assert forall wid :: wid in s.world.writes ==>
      WriteOk(s.world.log, s.world.epoch, s.world.jobs, s.world.writes[wid]);
    assert forall o :: o in s.tenures ==> TenureOk(s.world, o, s.tenures[o]);
  }

  /** Nothing new is owed after a step in which only `e` moved, to where it may run no more. */
  lemma NothingNewOwed(s: State, s': State, e: nat)
    requires OnlyMoves(s, s', e) && s'.world.outcomes == s.world.outcomes
    requires forall g :: e in s.tenures && MayRun(s.world.outcomes, s'.tenures[e].phase, g) ==>
               MayRun(s.world.outcomes, s.tenures[e].phase, g)
    requires forall g :: g in s'.world.submissions ==> g in s.world.submissions || MayBeRun(s, g)
    requires forall g :: Settled(s.world.submissions, s.world.jobs, g) ==>
               Settled(s'.world.submissions, s'.world.jobs, g)
    ensures OwesNoMore(s, s')
  {
  }

  /** What a step of tenure `e`, over an unchanged record, has to show. `wid` is the write it
      issues, if any. */
  lemma StepKeeps(s: State, s': State, e: nat, wid: nat)
    requires Inv(s) && OnlyMoves(s, s', e) && OwesNoMore(s, s')
    requires s'.world.log == s.world.log && s'.world.epoch == s.world.epoch && s'.world.outcomes == s.world.outcomes
    requires WorldOk(s'.world)
    requires forall i :: i in s'.world.writes && i != wid ==>
               i in s.world.writes && s'.world.writes[i] == s.world.writes[i]
    requires OthersAround(s, s', e)
    requires e in s.tenures ==> TenureOk(s'.world, e, s'.tenures[e])
    requires WriteCovered(s', wid) && ActingCovered(s', e)
    ensures Inv(s')
  {
    OthersStable(s, s', e);
    OwedStable(s, s', e, wid);
  }

  /** A step that only moves tenure `e`, and neither runs nor may newly run anything. */
  lemma MoveKeeps(s: State, s': State, e: nat)
    requires Inv(s) && e in s.tenures && OnlyMoves(s, s', e) && s'.world == s.world
    requires TenureOk(s.world, e, s'.tenures[e])
    requires forall g :: MayRun(s.world.outcomes, s'.tenures[e].phase, g) ==>
               MayRun(s.world.outcomes, s.tenures[e].phase, g)
    requires ActingCovered(s', e)
    ensures Inv(s')
  {
    NothingNewOwed(s, s', e);
    var wid := NoWrite(s.world.writes.Keys);
    StepKeeps(s, s', e, wid);
  }

  /** A write id not in use. */
  lemma {:induction false} NoWrite(ids: set<nat>) returns (wid: nat)
    ensures forall i :: i in ids ==> i < wid
  {
    if ids == {} {
      wid := 0;
    } else {
      var i := Pick(ids);
      var m := NoWrite(ids - {i});
      wid := if i < m then m else i + 1;
      assert forall j :: j in ids ==> j == i || j in ids - {i};
    }
  }

  lemma ReadKeeps(s: State, s': State, e: nat)
    requires Inv(s) && Read(s, s', e)
    ensures Inv(s')
  {
    var w, v := s.world, |s.world.log| - 1;
    assert TenureOk(w, e, s.tenures[e]);
    forall g | g in w.calls
      ensures g <= Gen(w.log, v)
    {
      GenMonotone(w.log, w.calls[g].version, v);
    }
    MoveKeeps(s, s', e);
  }

  lemma ListKeeps(s: State, s': State, e: nat, listed: Option<seq<Listed>>)
    requires Inv(s) && List(s, s', e, listed)
    ensures Inv(s')
  {
    assert TenureOk(s.world, e, s.tenures[e]);
    MoveKeeps(s, s', e);
  }

  lemma LookupKeeps(s: State, s': State, e: nat, id: JobId)
    requires Inv(s) && Lookup(s, s', e, id)
    ensures Inv(s')
  {
    assert TenureOk(s.world, e, s.tenures[e]);
    var record := s.world.log[At(s, e).version].record;
    assert IdsTrue(s.world.jobs, record.attempts);
    MoveKeeps(s, s', e);
  }

  /** What a decision drops is not owed: its job is over, or only this tenure, which is not
      calling Flink for it, could ever have run it. */
  lemma DecisionCovers(s: State, e: nat, next: map<int, Attempt>)
    requires Inv(s) && e in s.tenures && At(s, e).Gathering? && e == s.world.epoch && At(s, e).listed.Some?
    requires At(s, e).version + 1 == |s.world.log|
    requires forall g :: g in Current(s.world.log).attempts && g !in next ==>
               MayLeave(Current(s.world.log), At(s, e).listed.value, At(s, e).states, Never(s, e), g)
    ensures Covers(s, next)
  {
    var w, record := s.world, Current(s.world.log);
    forall g | g in record.attempts && g !in next
      ensures !MayBeRun(s, g) && (g in w.submissions ==> Settled(w.submissions, w.jobs, g))
    {
      DroppedNotOwed(s, e, g);
    }
  }

  lemma DroppedNotOwed(s: State, e: nat, g: int)
    requires Inv(s) && e in s.tenures && At(s, e).Gathering? && e == s.world.epoch && At(s, e).listed.Some?
    requires At(s, e).version + 1 == |s.world.log|
    requires MayLeave(Current(s.world.log), At(s, e).listed.value, At(s, e).states, Never(s, e), g)
    ensures !MayBeRun(s, g) && (g in s.world.submissions ==> Settled(s.world.submissions, s.world.jobs, g))
  {
    var w, p, record := s.world, At(s, e), Current(s.world.log);
    assert TenureOk(w, e, s.tenures[e]);
    var attempts := Resolve(record.attempts, p.listed.value);
    if id :| Holds(attempts, g, id) && Confirmed(p.states, id) {
      ResolvedSource(record, p.listed.value, g, id);
      assert IdsTrue(w.jobs, record.attempts);
      assert w.submissions[g] == Landed(id);
      RanNotRunnable(s, g);
    } else {
      forall o | o in s.tenures && MayRun(w.outcomes, s.tenures[o].phase, g)
        ensures o == e
      {
        var v := RunnerIsCreator(w, o, s.tenures[o], g);
      }
    }
  }

  /** A generation that has run cannot be run again: there is one call per generation. */
  lemma RanNotRunnable(s: State, g: int)
    requires Inv(s) && g in s.world.submissions
    ensures !MayBeRun(s, g)
  {
    var w := s.world;
    forall o | o in s.tenures && MayRun(w.outcomes, s.tenures[o].phase, g)
      ensures false
    {
      CalledNotRunnable(w, o, s.tenures[o], g);
    }
  }

  lemma CalledNotRunnable(w: World, o: nat, t: Tenure, g: int)
    requires WorldOk(w) && TenureOk(w, o, t) && MayRun(w.outcomes, t.phase, g) && g in w.calls
    ensures t.phase.Calling? && g !in w.submissions
  {
    var v := RunnerIsCreator(w, o, t, g);
    CreatorUnique(w.log, v, w.calls[g].version, g);
  }

  lemma DecideTenure(w: World, e: nat, t: Tenure, now: real, wall: string, plan: Plan, mem': Mem)
    requires WorldOk(w) && TenureOk(w, e, t) && t.phase.Gathering?
    requires Decides(w.log[t.phase.version].record, t.phase.listed, t.phase.states, t.mem, now, wall, plan, mem')
    ensures TenureOk(w, e, Tenure(Acting(t.phase.version, plan.cancel, Signed(plan.record, e), plan.submit), mem'))
  {
    var p, record := t.phase, w.log[t.phase.version].record;
    assert IdsTrue(w.jobs, record.attempts);
    DecisionTrue(w.jobs, record, p.listed, p.states, t.mem, now, wall, plan, mem');
    DecisionRecord(record, p.listed, p.states, t.mem, now, wall, plan, mem');
  }

  /** What is cancelled is superseded, and what is recorded is true, if what was seen is. */
  lemma DecisionTrue(jobs: map<JobId, Job>, record: Record, listed: Option<seq<Listed>>, states: map<JobId, Answer>,
                     mem: Mem,
                     now: real, wall: string, plan: Plan, mem': Mem)
    requires Decides(record, listed, states, mem, now, wall, plan, mem')
    requires IdsTrue(jobs, record.attempts) && (listed.Some? ==> Truthful(jobs, listed.value))
    ensures forall id :: id in plan.cancel ==> id in jobs && jobs[id].generation < record.generation
    ensures plan.record.Some? ==> IdsTrue(jobs, plan.record.value.attempts)
  {
    DecisionRecord(record, listed, states, mem, now, wall, plan, mem');
    forall id | id in plan.cancel
      ensures id in jobs && jobs[id].generation < record.generation
    {
      DecisionCancels(record, listed, states, mem, now, wall, plan, mem', id);
    }
  }

  lemma DecideActs(s: State, s': State, e: nat, next: Option<Record>)
    requires Inv(s) && e in s.tenures && OnlyMoves(s, s', e) && s'.world == s.world && At(s, e).Gathering?
    requires At(s', e).Acting? && At(s', e).version == At(s, e).version < |s.world.log|
    requires At(s', e).write == Signed(next, e)
    requires next.Some? ==>
               && At(s, e).listed.Some?
               && forall g :: g in s.world.log[At(s, e).version].record.attempts && g !in next.value.attempts ==>
                    MayLeave(s.world.log[At(s, e).version].record, At(s, e).listed.value, At(s, e).states, Never(s, e),
                             g)
    ensures ActingCovered(s', e)
  {
    if next.Some? && e == s.world.epoch && At(s, e).version + 1 == |s.world.log| {
      DecisionCovers(s, e, next.value.attempts);
      SameOwed(s, s', e, next.value.attempts);
    }
  }

  lemma DecideKeeps(s: State, s': State, e: nat, now: real, wall: string, plan: Plan, mem': Mem)
    requires Inv(s) && DecideStep(s, s', e, now, wall, plan, mem')
    ensures Inv(s')
  {
    assert TenureOk(s.world, e, s.tenures[e]);
    DecideTenure(s.world, e, s.tenures[e], now, wall, plan, mem');
    DecideCovered(s, s', e, now, wall, plan, mem');
    MoveKeeps(s, s', e);
  }

  lemma DecideCovered(s: State, s': State, e: nat, now: real, wall: string, plan: Plan, mem': Mem)
    requires Inv(s) && DecideStep(s, s', e, now, wall, plan, mem')
    ensures ActingCovered(s', e)
  {
    var p := At(s, e);
    DecisionRecord(s.world.log[p.version].record, p.listed, p.states, s.tenures[e].mem, now, wall, plan, mem');
    DecideActs(s, s', e, plan.record);
  }

  /** Moving between phases from which nothing may be run changes nothing owed. */
  lemma SameOwed(s: State, s': State, e: nat, attempts: map<int, Attempt>)
    requires e in s.tenures && OnlyMoves(s, s', e) && s'.world == s.world && Covers(s, attempts)
    requires forall g :: MayRun(s.world.outcomes, s'.tenures[e].phase, g) ==>
               MayRun(s.world.outcomes, s.tenures[e].phase, g)
    ensures Covers(s', attempts)
  {
  }

  lemma ConfirmKeeps(s: State, s': State, e: nat)
    requires Inv(s) && Confirm(s, s', e)
    ensures Inv(s')
  {
    assert TenureOk(s.world, e, s.tenures[e]);
    MoveKeeps(s, s', e);
  }

  /** An unconfirmed intent under the current epoch: nobody else can have brought its
      generation in, and nobody has run it. */
  lemma UnconfirmedKeeps(s: State, s': State, e: nat)
    requires Inv(s) && Unconfirmed(s, s', e)
    ensures Inv(s')
  {
    var w, p := s.world, At(s, e);
    assert TenureOk(w, e, s.tenures[e]);
    if e == w.epoch && p.submit.Some? {
      var g, base := p.submit.value, w.writes[p.wid].version;
      forall v: nat | Creates(w.log, v, g)
        ensures w.log[v].author == e
      {
        if v <= base {
          GenMonotone(w.log, v, base);
        }
      }
      assert g !in w.calls;
    }
    MoveKeeps(s, s', e);
  }

  lemma PauseKeeps(s: State, s': State, e: nat)
    requires Inv(s) && Pause(s, s', e)
    ensures Inv(s')
  {
    var w, p := s.world, At(s, e);
    assert TenureOk(w, e, s.tenures[e]);
    ReadyIsUncalled(w, e, s.tenures[e]);
    MoveKeeps(s, s', e);
  }

  /** A confirmed intent: nobody has called Flink for it, and its creator is this tenure alone. */
  lemma ReadyIsUncalled(w: World, e: nat, t: Tenure)
    requires WorldOk(w) && TenureOk(w, e, t) && t.phase.Ready?
    ensures t.phase.generation !in w.calls && t.phase.generation !in w.submissions
    ensures forall v: nat :: Creates(w.log, v, t.phase.generation) ==> w.log[v].author == e
  {
    var g := t.phase.generation;
    forall v: nat | Creates(w.log, v, g)
      ensures w.log[v].author == e
    {
      CreatorUnique(w.log, v, t.phase.version, g);
    }
    assert g in w.calls ==> CreatedBy(w.log, w.calls[g].version, g, w.calls[g].epoch);
  }

  lemma LeaveKeeps(s: State, s': State, e: nat)
    requires Inv(s) && (Abandon(s, s', e) || Retire(s, s', e))
    ensures Inv(s')
  {
    assert TenureOk(s.world, e, s.tenures[e]);
    MoveKeeps(s, s', e);
  }

  // Steps that change the world.

  lemma CancelWorld(w: World, v: nat, id: JobId)
    requires WorldOk(w) && v < |w.log| && id in w.jobs && w.jobs[id].generation < Gen(w.log, v)
    ensures WorldOk(w.(cancelled := w.cancelled + {id}))
  {
    GenMonotone(w.log, v, |w.log| - 1);
  }

  lemma CancelTenure(w: World, w': World, e: nat, t: Tenure)
    requires TenureOk(w, e, t) && t.phase.Acting? && t.phase.cancel != [] && w' == w.(cancelled := w'.cancelled)
    ensures TenureOk(w', e, t.(phase := t.phase.(cancel := t.phase.cancel[1..])))
  {
    assert BaseOk(w', e, t.phase.version);
    assert forall id :: id in t.phase.cancel[1..] ==> id in t.phase.cancel;
  }

  lemma CancelAround(s: State, s': State, e: nat)
    requires Cancel(s, s', e)
    ensures OthersAround(s, s', e)
  {
  }

  lemma CancelKeeps(s: State, s': State, e: nat)
    requires Inv(s) && Cancel(s, s', e)
    ensures Inv(s')
  {
    var t := s.tenures[e];
    assert TenureOk(s.world, e, t);
    assert t.phase.cancel[0] in t.phase.cancel;
    CancelWorld(s.world, t.phase.version, t.phase.cancel[0]);
    CancelTenure(s.world, s'.world, e, t);
    CancelAround(s, s', e);
    OthersStable(s, s', e);
    CancelOwed(s, s', e);
    var wid := NoWrite(s.world.writes.Keys);
    OwedStable(s, s', e, wid);
  }

  lemma CancelOwed(s: State, s': State, e: nat)
    requires OwedOk(s) && Cancel(s, s', e)
    ensures OwesNoMore(s, s') && ActingCovered(s', e)
  {
    var write := At(s, e).write;
    NothingNewOwed(s, s', e);
    assert ActingCovered(s, e);
    if write.Some? && Covers(s, write.value.attempts) {
      CoversStable(s, s', write.value.attempts);
    }
  }

  lemma SentOk(w: World, wid: nat, write: Write)
    requires WorldOk(w) && wid !in w.writes && WriteOk(w.log, w.epoch, w.jobs, write)
    ensures WorldOk(Send(w, wid, write))
  {
  }

  lemma SentAroundAll(s: State, s': State, e: nat, wid: nat, write: Write)
    requires wid !in s.world.writes && s'.world == Send(s.world, wid, write)
    ensures OthersAround(s, s', e)
  {
  }

  /** A write issued by `e`: well formed, and covering whatever is owed if it could be applied. */
  lemma SendKeeps(s: State, s': State, e: nat, wid: nat, write: Write)
    requires Inv(s) && e in s.tenures && OnlyMoves(s, s', e)
    requires wid !in s.world.writes && s'.world == Send(s.world, wid, write)
    requires WriteOk(s.world.log, s.world.epoch, s.world.jobs, write)
    requires TenureOk(s'.world, e, s'.tenures[e]) && !s'.tenures[e].phase.Acting?
    requires OwesNoMore(s, s')
    requires Appliable(s.world, write) ==> Covers(s', write.record.attempts)
    ensures Inv(s')
  {
    SentOk(s.world, wid, write);
    SendTenures(s, s', e, wid, write);
    SendOwed(s, s', e, wid, write);
  }

  lemma SendTenures(s: State, s': State, e: nat, wid: nat, write: Write)
    requires WorldOk(s.world) && TenuresOk(s) && e in s.tenures && OnlyMoves(s, s', e)
    requires wid !in s.world.writes && s'.world == Send(s.world, wid, write) && TenureOk(s'.world, e, s'.tenures[e])
    ensures TenuresOk(s')
  {
    SentAroundAll(s, s', e, wid, write);
    OthersStable(s, s', e);
  }

  lemma SendOwed(s: State, s': State, e: nat, wid: nat, write: Write)
    requires OwedOk(s) && e in s.tenures && OnlyMoves(s, s', e) && OwesNoMore(s, s')
    requires s'.world == Send(s.world, wid, write) && !s'.tenures[e].phase.Acting?
    requires Appliable(s.world, write) ==> Covers(s', write.record.attempts)
    ensures OwedOk(s')
  {
    OwedStable(s, s', e, wid);
  }

  lemma IssueKeeps(s: State, s': State, e: nat, wid: nat)
    requires Inv(s) && Issue(s, s', e, wid)
    ensures Inv(s')
  {
    var p := At(s, e);
    var write := Write(e, p.write.value, p.version);
    assert TenureOk(s.world, e, s.tenures[e]);
    NothingNewOwed(s, s', e);
    assert ActingCovered(s, e);
    if Appliable(s.world, write) {
      CoversStable(s, s', write.record.attempts);
    }
    assert wid !in s.world.outcomes;
    SendKeeps(s, s', e, wid, write);
  }

  lemma CallTenure(w: World, w': World, e: nat, t: Tenure)
    requires WorldOk(w) && TenureOk(w, e, t) && t.phase.Ready?
    requires w' == w.(calls := w.calls[t.phase.generation := Call(e, t.phase.version)])
    ensures TenureOk(w', e, Tenure(Calling(t.phase.version, t.phase.generation, false),
                                   t.mem.(neverSubmitted := t.mem.neverSubmitted - {t.phase.generation})))
  {
    ReadyIsUncalled(w, e, t);
  }

  lemma CallWorld(w: World, w': World, e: nat, t: Tenure)
    requires WorldOk(w) && TenureOk(w, e, t) && t.phase.Ready?
    requires w' == w.(calls := w.calls[t.phase.generation := Call(e, t.phase.version)])
    ensures WorldOk(w')
  {
    assert CreatedBy(w.log, t.phase.version, t.phase.generation, e);
    assert forall wid :: wid in w.writes ==> WriteOk(w.log, w.epoch, w.jobs, w.writes[wid]);
  }

  lemma CallAround(s: State, s': State, e: nat)
    requires CallFlink(s, s', e) && At(s, e).generation !in s.world.calls
    ensures OthersAround(s, s', e)
  {
  }

  lemma CallOwed(s: State, s': State, e: nat)
    requires OwedOk(s) && CallFlink(s, s', e)
    ensures OwedOk(s')
  {
    NothingNewOwed(s, s', e);
    var wid := NoWrite(s.world.writes.Keys);
    OwedStable(s, s', e, wid);
  }

  lemma CallKeeps(s: State, s': State, e: nat)
    requires Inv(s) && CallFlink(s, s', e)
    ensures Inv(s')
  {
    var t := s.tenures[e];
    assert TenureOk(s.world, e, t);
    ReadyIsUncalled(s.world, e, t);
    CallTenure(s.world, s'.world, e, t);
    CallWorld(s.world, s'.world, e, t);
    CallAround(s, s', e);
    OthersStable(s, s', e);
    CallOwed(s, s', e);
  }

  lemma RunAround(s: State, s': State, e: nat)
    requires Run(s, s', e) && CreatedBy(s.world.log, At(s, e).version, At(s, e).generation, e)
    ensures OthersAround(s, s', e)
  {
    forall o | o in s.tenures && o != e
      ensures Around(s.world, s'.world, o)
    {
      assert NotBroughtInBy(s.world.log, At(s, e).generation, o);
    }
  }

  lemma RunWorld(w: World, w': World, g: int)
    requires WorldOk(w) && g in w.calls && g !in w.submissions && w' == w.(submissions := w.submissions[g := InFlight])
    ensures WorldOk(w')
  {
    assert forall wid :: wid in w.writes ==> WriteOk(w.log, w.epoch, w.jobs, w.writes[wid]);
  }

  lemma RunTenure(w: World, w': World, e: nat, t: Tenure)
    requires TenureOk(w, e, t) && t.phase.Calling? && !t.phase.ran
    requires w' == w.(submissions := w.submissions[t.phase.generation := InFlight])
    ensures TenureOk(w', e, t.(phase := t.phase.(ran := true)))
  {
  }

  lemma RunOwed(s: State, s': State, e: nat)
    requires OwedOk(s) && Run(s, s', e) && At(s, e).generation !in s.world.submissions
    ensures OwedOk(s')
  {
    assert MayBeRun(s, At(s, e).generation) by {
      assert MayRun(s.world.outcomes, s.tenures[e].phase, At(s, e).generation);
    }
    NothingNewOwed(s, s', e);
    var wid := NoWrite(s.world.writes.Keys);
    OwedStable(s, s', e, wid);
  }

  lemma RunKeeps(s: State, s': State, e: nat)
    requires Inv(s) && Run(s, s', e)
    ensures Inv(s')
  {
    var t := s.tenures[e];
    assert TenureOk(s.world, e, t);
    RunWorld(s.world, s'.world, t.phase.generation);
    RunTenure(s.world, s'.world, e, t);
    RunAround(s, s', e);
    OthersStable(s, s', e);
    RunOwed(s, s', e);
  }

  /** The command never ran: nobody can run the generation now, so it is not owed. */
  lemma NeverRanCovers(s: State, s': State, e: nat, g: int, attempts: map<int, Attempt>)
    requires Inv(s) && e in s.tenures && OnlyMoves(s, s', e) && MayRun(s.world.outcomes, At(s, e), g)
    requires s'.world.outcomes == s.world.outcomes && s'.world.submissions == s.world.submissions
    requires s'.world.jobs == s.world.jobs
    requires s'.tenures[e].phase.AwaitResult?
    requires Covers(s, attempts) && g !in s.world.submissions
    ensures Covers(s', attempts - {g})
  {
    NothingNewOwed(s, s', e);
    NoOtherRunner(s, e, g);
    CoversStable(s, s', attempts);
    forall o | o in s'.tenures
      ensures !MayRun(s'.world.outcomes, s'.tenures[o].phase, g)
    {
      assert o != e ==> s'.tenures[o] == s.tenures[o];
    }
  }

  lemma NeverRanTenure(w: World, w': World, e: nat, t: Tenure, t': Tenure)
    requires WorldOk(w) && TenureOk(w, e, t) && t.phase.Calling? && !t.phase.ran
    requires w' == w.(writes := w'.writes) && (t'.phase.Idle? || t'.phase.AwaitResult?)
    requires t'.mem.neverSubmitted == t.mem.neverSubmitted + {t.phase.generation}
    ensures TenureOk(w', e, t')
  {
    forall v: nat | Creates(w.log, v, t.phase.generation)
      ensures w.log[v].author == e
    {
      CreatorUnique(w.log, v, t.phase.version, t.phase.generation);
    }
  }

  lemma NeverRanKeeps(s: State, s': State, e: nat, wid: nat, interrupted: bool)
    requires Inv(s) && NeverRan(s, s', e, wid, interrupted)
    ensures Inv(s')
  {
    assert TenureOk(s.world, e, s.tenures[e]);
    NeverRanTenure(s.world, s'.world, e, s.tenures[e], s'.tenures[e]);
    if interrupted {
      MoveKeeps(s, s', e);
    } else {
      NeverRanSends(s, s', e, wid);
    }
  }

  /** The attempt is struck off by a write of its own. */
  lemma NeverRanSends(s: State, s': State, e: nat, wid: nat)
    requires Inv(s) && NeverRan(s, s', e, wid, false) && TenureOk(s'.world, e, s'.tenures[e])
    ensures Inv(s')
  {
    NeverRanWrite(s, s', e, wid);
    NeverRanOwed(s, s', e, wid);
    SendKeeps(s, s', e, wid, s'.world.writes[wid]);
  }

  lemma NeverRanWrite(s: State, s': State, e: nat, wid: nat)
    requires WorldOk(s.world) && NeverRan(s, s', e, wid, false) && TenureOk(s.world, e, s.tenures[e])
    ensures WriteOk(s.world.log, s.world.epoch, s.world.jobs, s'.world.writes[wid])
  {
    StillTrue(s.world.jobs, s.world.log[At(s, e).version].record.attempts, s'.world.writes[wid].record.attempts);
  }

  lemma NeverRanOwed(s: State, s': State, e: nat, wid: nat)
    requires Inv(s) && NeverRan(s, s', e, wid, false)
    ensures OwesNoMore(s, s')
    ensures Appliable(s.world, s'.world.writes[wid]) ==> Covers(s', s'.world.writes[wid].record.attempts)
  {
    var w, p := s.world, At(s, e);
    assert TenureOk(w, e, s.tenures[e]);
    NothingNewOwed(s, s', e);
    if Appliable(w, s'.world.writes[wid]) {
      NeverRanCovers(s, s', e, p.generation, w.log[p.version].record.attempts);
    }
  }

  lemma StillTrue(jobs: map<JobId, Job>, attempts: map<int, Attempt>, attempts': map<int, Attempt>)
    requires IdsTrue(jobs, attempts)
    requires forall g, id :: Holds(attempts', g, id) ==>
               Holds(attempts, g, id) || (id in jobs && jobs[id].generation == g)
    ensures IdsTrue(jobs, attempts')
  {
  }

  lemma NoOtherRunner(s: State, e: nat, g: int)
    requires Inv(s) && e in s.tenures && MayRun(s.world.outcomes, s.tenures[e].phase, g)
    ensures forall o :: o in s.tenures && MayRun(s.world.outcomes, s.tenures[o].phase, g) ==> o == e
  {
    var v := RunnerIsCreator(s.world, e, s.tenures[e], g);
    forall o | o in s.tenures && MayRun(s.world.outcomes, s.tenures[o].phase, g)
      ensures o == e
    {
      var u := RunnerIsCreator(s.world, o, s.tenures[o], g);
      CreatorUnique(s.world.log, u, v, g);
    }
  }

  lemma ReturnedWrite(s: State, s': State, e: nat, wid: nat)
    requires Inv(s) && Returned(s, s', e, wid)
    ensures WriteOk(s.world.log, s.world.epoch, s.world.jobs, s'.world.writes[wid])
    ensures TenureOk(s'.world, e, s'.tenures[e])
  {
    var w, p := s.world, At(s, e);
    assert TenureOk(w, e, s.tenures[e]);
    StillTrue(w.jobs, w.log[p.version].record.attempts, s'.world.writes[wid].record.attempts);
  }

  lemma ReturnedKeeps(s: State, s': State, e: nat, wid: nat)
    requires Inv(s) && Returned(s, s', e, wid)
    ensures Inv(s')
  {
    ReturnedWrite(s, s', e, wid);
    ReturnedOwed(s, s', e, wid);
    SendKeeps(s, s', e, wid, s'.world.writes[wid]);
  }

  lemma ReturnedOwed(s: State, s': State, e: nat, wid: nat)
    requires OwedOk(s) && Returned(s, s', e, wid)
    ensures OwesNoMore(s, s')
    ensures Appliable(s.world, s'.world.writes[wid]) ==> Covers(s', s'.world.writes[wid].record.attempts)
  {
    var write, record := s'.world.writes[wid], s.world.log[At(s, e).version].record;
    NothingNewOwed(s, s', e);
    if Appliable(s.world, write) {
      CoversStable(s, s', record.attempts);
      assert write.record.attempts.Keys == record.attempts.Keys;
    }
  }

  lemma NoTenureZero(s: State)
    requires TenuresOk(s)
    ensures 0 !in s.tenures
  {
  }

  /** Steps of Flink itself: no tenure moves (there is no tenure 0). */
  lemma FlinkKeeps(s: State, s': State)
    requires Inv(s) && s'.tenures == s.tenures
    requires s'.world == s.world.(submissions := s'.world.submissions, jobs := s'.world.jobs)
    requires s'.world.submissions.Keys == s.world.submissions.Keys && JobsKept(s.world.jobs, s'.world.jobs)
    requires forall g :: Settled(s.world.submissions, s.world.jobs, g) ==>
               Settled(s'.world.submissions, s'.world.jobs, g)
    requires JobsOk(s'.world.calls, s'.world.submissions, s'.world.jobs)
    ensures Inv(s')
  {
    NoTenureZero(s);
    FlinkWorld(s.world, s'.world);
    FlinkTenures(s, s');
    FlinkOwed(s, s');
  }

  lemma FlinkWorld(w: World, w': World)
    requires WorldOk(w) && w' == w.(submissions := w'.submissions, jobs := w'.jobs) && JobsKept(w.jobs, w'.jobs)
    requires JobsOk(w'.calls, w'.submissions, w'.jobs)
    ensures WorldOk(w')
  {
    IdsStable(w, w');
  }

  lemma FlinkTenures(s: State, s': State)
    requires WorldOk(s.world) && TenuresOk(s) && s'.tenures == s.tenures && 0 !in s.tenures
    requires s'.world == s.world.(submissions := s'.world.submissions, jobs := s'.world.jobs)
    requires s'.world.submissions.Keys == s.world.submissions.Keys && JobsKept(s.world.jobs, s'.world.jobs)
    ensures TenuresOk(s')
  {
    OthersStable(s, s', 0);
  }

  lemma FlinkOwed(s: State, s': State)
    requires OwedOk(s) && s'.tenures == s.tenures && 0 !in s.tenures
    requires s'.world == s.world.(submissions := s'.world.submissions, jobs := s'.world.jobs)
    requires s'.world.submissions.Keys == s.world.submissions.Keys
    requires forall g :: Settled(s.world.submissions, s.world.jobs, g) ==>
               Settled(s'.world.submissions, s'.world.jobs, g)
    ensures OwedOk(s')
  {
    NothingNewOwed(s, s', 0);
    var wid := NoWrite(s.world.writes.Keys);
    OwedStable(s, s', 0, wid);
  }

  lemma IdsStable(w: World, w': World)
    requires WorldOk(w) && JobsKept(w.jobs, w'.jobs) && w'.log == w.log && w'.writes == w.writes && w'.epoch == w.epoch
    ensures LogTrue(w'.log, w'.jobs)
    ensures forall wid :: wid in w'.writes ==> WriteOk(w'.log, w'.epoch, w'.jobs, w'.writes[wid])
  {
  }

  lemma LandKeeps(s: State, s': State, g: int, id: JobId, state: JobState)
    requires Inv(s) && Land(s, s', g, id, state)
    ensures Inv(s')
  {
    LandedJobs(s.world, g, id, state);
    FlinkKeeps(s, s');
  }

  lemma JobMovesKeeps(s: State, s': State, id: JobId, fate: Answer)
    requires Inv(s) && JobMoves(s, s', id, fate)
    ensures Inv(s')
  {
    MovedJobs(s.world, id, fate);
    FlinkKeeps(s, s');
  }

  lemma LandedJobs(w: World, g: int, id: JobId, state: JobState)
    requires JobsOk(w.calls, w.submissions, w.jobs) && g in w.submissions && w.submissions[g].InFlight? && id !in w.jobs
    ensures var submissions, jobs := w.submissions[g := Landed(id)], w.jobs[id := Job(g, Is(state))];
            && JobsOk(w.calls, submissions, jobs) && JobsKept(w.jobs, jobs) && submissions.Keys == w.submissions.Keys
            && forall h :: Settled(w.submissions, w.jobs, h) ==> Settled(submissions, jobs, h)
  {
  }

  lemma MovedJobs(w: World, id: JobId, fate: Answer)
    requires JobsOk(w.calls, w.submissions, w.jobs) && id in w.jobs && (Over(w.jobs[id].fate) ==> Over(fate))
    ensures var jobs := w.jobs[id := w.jobs[id].(fate := fate)];
            && JobsOk(w.calls, w.submissions, jobs) && JobsKept(w.jobs, jobs)
            && forall h :: Settled(w.submissions, w.jobs, h) ==> Settled(w.submissions, jobs, h)
  {
  }

  /** A rejected write changes nothing; an applied one replaces the record with one that
      covers everything owed, including the generation its author may now run. */
  lemma CommitKeeps(s: State, s': State, wid: nat)
    requires Inv(s) && Commit(s, s', wid)
    ensures Inv(s')
  {
    var w, w' := s.world, s'.world;
    var write := w.writes[wid];
    assert WriteOk(w.log, w.epoch, w.jobs, write);
    CommitTenures(s, s', wid);
    if Appliable(w, write) {
      CommitWorld(w, w', wid);
      CommitOwed(s, s', wid);
    } else {
      RejectOwed(s, s', wid);
    }
  }

  lemma CommitTenures(s: State, s': State, wid: nat)
    requires WorldOk(s.world) && TenuresOk(s) && Commit(s, s', wid)
    ensures TenuresOk(s')
  {
    forall o | o in s.tenures
      ensures TenureOk(s'.world, o, s.tenures[o])
    {
      TenureStable(s.world, s'.world, o, s.tenures[o]);
    }
  }

  lemma LogGrows(log: seq<Entry>, entry: Entry, calls: map<int, Call>)
    requires LogOk(log) && CallsOk(log, calls)
    requires StepsByOne(Current(log).generation, entry.record.generation)
    ensures LogOk(log + [entry]) && CallsOk(log + [entry], calls)
  {
    var log' := log + [entry];
    forall v | 1 <= v < |log'|
      ensures StepsByOne(Gen(log', v - 1), Gen(log', v))
    {
      if v < |log| {
        assert StepsByOne(Gen(log, v - 1), Gen(log, v));
      }
    }
    forall g | g in calls
      ensures CreatedBy(log', calls[g].version, g, calls[g].epoch)
    {
      assert CreatedBy(log, calls[g].version, g, calls[g].epoch);
    }
  }

  lemma CommitWorld(w: World, w': World, wid: nat)
    requires WorldOk(w) && wid in w.writes && wid !in w.outcomes && Appliable(w, w.writes[wid])
    requires w' == w.(log := w.log + [Entry(w.writes[wid].record, w.writes[wid].epoch)],
                      outcomes := w.outcomes[wid := Applied(|w.log|)])
    ensures WorldOk(w')
  {
    var write := w.writes[wid];
    assert WriteOk(w.log, w.epoch, w.jobs, write);
    LogGrows(w.log, Entry(write.record, write.epoch), w.calls);
    LaterWrites(w.log, w'.log, w.epoch, w.jobs, w.writes);
    CommitOutcomes(w.log, w.writes, w.outcomes, wid);
    assert LogTrue(w'.log, w.jobs);
  }

  lemma LaterWrites(log: seq<Entry>, log': seq<Entry>, epoch: nat, jobs: map<JobId, Job>, writes: map<nat, Write>)
    requires log <= log' && forall i :: i in writes ==> WriteOk(log, epoch, jobs, writes[i])
    ensures forall i :: i in writes ==> WriteOk(log', epoch, jobs, writes[i])
  {
  }

  lemma CommitOutcomes(log: seq<Entry>, writes: map<nat, Write>, outcomes: map<nat, Outcome>, wid: nat)
    requires OutcomesOk(log, writes, outcomes) && wid in writes && writes[wid].version + 1 == |log|
    ensures OutcomesOk(log + [Entry(writes[wid].record, writes[wid].epoch)], writes, outcomes[wid := Applied(|log|)])
  {
  }

  lemma CommitCovers(s: State, s': State, wid: nat)
    requires Inv(s) && Commit(s, s', wid) && Appliable(s.world, s.world.writes[wid])
    ensures Covers(s', s.world.writes[wid].record.attempts)
  {
    var w, w', attempts := s.world, s'.world, s.world.writes[wid].record.attempts;
    assert WriteCovered(s, wid);
    forall g | MayBeRun(s', g)
      ensures g in attempts
    {
      var o :| o in s'.tenures && MayRun(w'.outcomes, s'.tenures[o].phase, g);
      CommitRunner(w, o, s.tenures[o], wid, g);
    }
  }

  /** Who may run something after a write is applied could before, or it is what the write brings in. */
  lemma CommitRunner(w: World, o: nat, t: Tenure, wid: nat, g: int)
    requires TenureOk(w, o, t) && wid in w.writes && wid !in w.outcomes
    requires MayRun(w.outcomes[wid := Applied(|w.log|)], t.phase, g)
    ensures MayRun(w.outcomes, t.phase, g) || g in w.writes[wid].record.attempts
  {
  }

  lemma CommitOwed(s: State, s': State, wid: nat)
    requires Inv(s) && Commit(s, s', wid) && Appliable(s.world, s.world.writes[wid])
    ensures OwedOk(s')
  {
    CommitCovers(s, s', wid);
    forall i
      ensures WriteCovered(s', i)
    {
      assert i in s.world.writes ==> WriteOk(s.world.log, s.world.epoch, s.world.jobs, s.world.writes[i]);
    }
    forall o
      ensures ActingCovered(s', o)
    {
      assert o in s.tenures ==> TenureOk(s.world, o, s.tenures[o]);
    }
  }

  lemma RejectOwed(s: State, s': State, wid: nat)
    requires Inv(s) && Commit(s, s', wid) && !Appliable(s.world, s.world.writes[wid])
    ensures OwedOk(s')
  {
    RejectOwesNoMore(s, s', wid);
    NoTenureZero(s);
    OwedStable(s, s', 0, wid);
  }

  lemma RejectOwesNoMore(s: State, s': State, wid: nat)
    requires Commit(s, s', wid) && !Appliable(s.world, s.world.writes[wid])
    ensures OwesNoMore(s, s')
  {
    forall g | MayBeRun(s', g)
      ensures MayBeRun(s, g)
    {
      var o :| o in s'.tenures && MayRun(s'.world.outcomes, s'.tenures[o].phase, g);
      assert o in s.tenures && MayRun(s.world.outcomes, s.tenures[o].phase, g);
    }
  }

  /** The steps of a cycle up to what it writes. */
  predicate Early(step: Step) {
    step.SRead? || step.SList? || step.SLookup? || step.SDecide? || step.SCancel? || step.SIssue?
    || step.SConfirm? || step.SUnconfirmed? || step.SPause?
  }

  lemma EarlyKeeps(s: State, s': State, step: Step)
    requires Inv(s) && Takes(s, s', step) && Early(step)
    ensures Inv(s')
  {
    match step
    case SRead(e) => ReadKeeps(s, s', e);
    case SList(e, listed) => ListKeeps(s, s', e, listed);
    case SLookup(e, id) => LookupKeeps(s, s', e, id);
    case SDecide(e, now, wall, plan, mem) => DecideKeeps(s, s', e, now, wall, plan, mem);
    case SCancel(e) => CancelKeeps(s, s', e);
    case SIssue(e, wid) => IssueKeeps(s, s', e, wid);
    case SConfirm(e) => ConfirmKeeps(s, s', e);
    case SUnconfirmed(e) => UnconfirmedKeeps(s, s', e);
    case SPause(e) => PauseKeeps(s, s', e);
  }

  lemma InvKept(s: State, s': State, step: Step)
    requires Inv(s) && Takes(s, s', step)
    ensures Inv(s')
  {
    if Early(step) {
      EarlyKeeps(s, s', step);
    } else {
      match step
      case SClaim => ClaimKeeps(s, s');
      case SCommit(wid) => CommitKeeps(s, s', wid);
      case SCall(e) => CallKeeps(s, s', e);
      case SRun(e) => RunKeeps(s, s', e);
      case SNeverRan(e, wid, interrupted) => NeverRanKeeps(s, s', e, wid, interrupted);
      case SLand(g, id, state) => LandKeeps(s, s', g, id, state);
      case SReturned(e, wid) => ReturnedKeeps(s, s', e, wid);
      case SAbandon(e) => LeaveKeeps(s, s', e);
      case SRetire(e) => LeaveKeeps(s, s', e);
      case SJob(id, fate) => JobMovesKeeps(s, s', id, fate);
    }
  }
}
