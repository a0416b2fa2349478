/** What the decisions made in a run of the keeper protocol add up to: each tenure's are the cycles
    of one tenure, and the record counts its resubmissions (src/pipeline/job_keeper.py). */
module KeeperDecisions {
  import opened Basics
  import opened JobKeeper
  import opened KeeperProtocol
  import opened KeeperTheorems
  import opened KeeperRuns

  // --- a tenure's decisions are the cycles of one tenure -----------------------------------------

  /** What tenure `e` decides from, when it decides at `now`. */
  ghost function CycleAt(s: State, e: nat, now: real): Cycle
    requires e in s.tenures && At(s, e).Gathering? && At(s, e).version < |s.world.log|
  {
    var p := At(s, e);
    Cycle(s.world.log[p.version].record, p.listed, p.states, s.tenures[e].mem, now)
  }

  ghost predicate DecidesFrom(s: State, e: nat, c: Cycle) {
    e in s.tenures && At(s, e).Gathering? && At(s, e).version < |s.world.log| && c == CycleAt(s, e, c.now)
  }

  /** The clocks the tenure has running are those its cycles so far leave. */
  ghost predicate ClocksOf(cycles: seq<Cycle>, firstSeen: map<Key, real>) {
    if cycles == [] then firstSeen == map[] else OneTenure(cycles) && firstSeen == SeenNext(KeeperRuns.Last(cycles))
  }

  ghost predicate MadeBefore(b: seq<State>, i: nat, e: nat, c: Cycle) {
    exists j :: 0 <= j < i && j < |b| && DecidesFrom(b[j], e, c)
  }

  lemma ClocksStep(s: State, s': State, step: Step, e: nat)
    requires Takes(s, s', step) && e in s.tenures && e <= s.world.epoch && !(step.SDecide? && step.e == e)
    ensures e in s'.tenures && s'.tenures[e].mem.firstSeen == s.tenures[e].mem.firstSeen
  {
  }

  lemma DecideStepClocks(s: State, s': State, step: Step)
    requires Takes(s, s', step) && step.SDecide?
    ensures var e := step.e;
            && e in s.tenures && e in s'.tenures && At(s, e).Gathering? && At(s, e).version < |s.world.log|
            && s'.tenures[e].mem.firstSeen == SeenNext(CycleAt(s, e, step.now))
  {
  }

  lemma OneMoreCycle(cycles: seq<Cycle>, c: Cycle)
    requires ClocksOf(cycles, c.mem.firstSeen)
    ensures OneTenure(cycles + [c]) && ClocksOf(cycles + [c], SeenNext(c))
  {
    var all := cycles + [c];
    forall i | 0 < i < |all|
      ensures Follows(all, i)
    {
      assert i < |cycles| ==> Follows(cycles, i);
    }
  }

  lemma {:induction false} TenureCycles(b: seq<State>, i: nat, e: nat) returns (cycles: seq<Cycle>)
    requires Behavior(b) && i < |b| && e in b[i].tenures
    ensures ClocksOf(cycles, b[i].tenures[e].mem.firstSeen)
    ensures forall k :: 0 <= k < |cycles| ==> MadeBefore(b, i, e, cycles[k])
  {
    assert i > 0;
    assert Linked(b, i - 1);
    var s, s' := b[i - 1], b[i];
    var step :| Takes(s, s', step);
    if e !in s.tenures {
      StartsBlank(s, s', step, e);
      cycles := [];
    } else {
      cycles := TenureCycles(b, i - 1, e);
      if step.SDecide? && step.e == e {
        DecideStepClocks(s, s', step);
        var c := CycleAt(s, e, step.now);
        OneMoreCycle(cycles, c);
        assert DecidesFrom(b[i - 1], e, c);
        cycles := cycles + [c];
      } else {
        NoLaterTenure(b, i - 1, e);
        ClocksStep(s, s', step, e);
      }
    }
  }

  lemma NoLaterTenure(b: seq<State>, i: nat, e: nat)
    requires Behavior(b) && i < |b| && e in b[i].tenures
    ensures e <= b[i].world.epoch
  {
    Reached(b, i);
    assert TenureOk(b[i].world, e, b[i].tenures[e]);
  }

  lemma StartsBlank(s: State, s': State, step: Step, e: nat)
    requires Takes(s, s', step) && e !in s.tenures && e in s'.tenures
    ensures s'.tenures[e].mem.firstSeen == map[]
  {
  }

  /** A decision anywhere in a run is the last of its tenure's own cycles, so what those justify
      holds of it: it advances the generation only for a reason this tenure saw, and after the
      backoff this tenure timed; and it forgives only after a minute this tenure timed. */
  lemma DecisionsAreOneTenures(b: seq<State>, i: nat, e: nat, now: real, wall: string, plan: Plan, mem': Mem)
    returns (cycles: seq<Cycle>, since: nat, id: JobId)
    requires Behavior(b) && i + 1 < |b| && DecideStep(b[i], b[i + 1], e, now, wall, plan, mem')
    ensures LastDecides(cycles, wall, plan, mem') && KeeperRuns.Last(cycles) == CycleAt(b[i], e, now)
    ensures forall k :: 0 <= k < |cycles| ==> MadeBefore(b, i + 1, e, cycles[k])
    ensures plan.submit.Some? ==> Justified(cycles)
    ensures plan.submit.Some? ==> WaitedOut(cycles, since)
    ensures Forgave(plan, CycleAt(b[i], e, now).record) ==> HealthyMinute(cycles, since, id)
  {
    var c := CycleAt(b[i], e, now);
    cycles := TenureCycles(b, i, e);
    OneMoreCycle(cycles, c);
    assert DecidesFrom(b[i], e, c);
    cycles, since, id := cycles + [c], 0, 0;
    if plan.submit.Some? {
      AdvanceIsJustified(cycles, wall, plan, mem');
      since := AdvanceWaitsOutBackoff(cycles, wall, plan, mem');
    } else if Forgave(plan, c.record) {
      since, id := ForgivenAfterHealthyMinute(cycles, wall, plan, mem');
    }
  }

  /** The decision changes the failures without advancing. */
  predicate Forgave(plan: Plan, record: Record) {
    plan.submit.None? && plan.record.Some? && plan.record.value.failures != record.failures
  }

  // --- the record counts its resubmissions ---------------------------------------------------------

  /** A resubmission adds one failure, the first submission none; otherwise failures stay or are forgiven. */
  predicate Counts(before: Record, next: Record) {
    if next.generation == before.generation + 1
    then next.failures == if before.generation >= 1 then before.failures + 1 else 0
    else next.generation == before.generation && (next.failures == before.failures || next.failures == 0)
  }

  ghost predicate WriteCounts(log: seq<Entry>, version: nat, record: Record) {
    version < |log| && Counts(log[version].record, record)
  }

  ghost predicate LogCounts(log: seq<Entry>) {
    forall v: nat :: 0 < v < |log| ==> Counts(log[v - 1].record, log[v].record)
  }

  ghost predicate PhaseCounts(log: seq<Entry>, p: Phase) {
    p.Acting? && p.write.Some? ==> WriteCounts(log, p.version, p.write.value)
  }

  ghost predicate AllCount(s: State) {
    && LogCounts(s.world.log)
    && (forall wid :: wid in s.world.writes ==>
        WriteCounts(s.world.log, s.world.writes[wid].version, s.world.writes[wid].record))
    && (forall e :: e in s.tenures ==> PhaseCounts(s.world.log, At(s, e)))
  }

  lemma DecisionCounts(record: Record, listed: Option<seq<Listed>>, states: map<JobId, Answer>, mem: Mem,
                       now: real, wall: string, plan: Plan, mem': Mem)
    requires Decides(record, listed, states, mem, now, wall, plan, mem') && plan.record.Some?
    ensures Counts(record, plan.record.value)
  {
  }

  lemma CommitCounts(s: State, s': State, wid: nat)
    requires AllCount(s) && Commit(s, s', wid)
    ensures AllCount(s')
  {
    var w := s.world.writes[wid];
    assert WriteCounts(s.world.log, w.version, w.record);
  }

  /** A step that leaves the log alone writes, or is about to write, only what counts. */
  lemma StepCounts(s: State, s': State, step: Step)
    requires AllCount(s) && Takes(s, s', step) && !step.SCommit?
    ensures AllCount(s')
  {
    LogStays(s, s', step);
    WritesCount(s, s', step);
    PhasesCount(s, s', step);
  }

  lemma LogStays(s: State, s': State, step: Step)
    requires Takes(s, s', step) && !step.SCommit?
    ensures s'.world.log == s.world.log
  {
  }

  lemma WritesCount(s: State, s': State, step: Step)
    requires AllCount(s) && Takes(s, s', step) && !step.SCommit?
    ensures forall wid :: wid in s'.world.writes ==>
              WriteCounts(s.world.log, s'.world.writes[wid].version, s'.world.writes[wid].record)
  {
  }

  lemma PhasesCount(s: State, s': State, step: Step)
    requires AllCount(s) && Takes(s, s', step) && !step.SCommit?
    ensures forall e :: e in s'.tenures ==> PhaseCounts(s.world.log, At(s', e))
  {
    if step.SDecide? {
      var p := At(s, step.e);
      if step.plan.record.Some? {
        DecisionCounts(s.world.log[p.version].record, p.listed, p.states, s.tenures[step.e].mem, step.now, step.wall,
                       step.plan, step.mem);
      }
    }
  }

  lemma {:induction false} CountsReached(b: seq<State>, i: nat)
    requires Behavior(b) && i < |b|
    ensures AllCount(b[i])
  {
    if i > 0 {
      CountsReached(b, i - 1);
      assert Linked(b, i - 1);
      var step :| Takes(b[i - 1], b[i], step);
      if step.SCommit? {
        CommitCounts(b[i - 1], b[i], step.wid);
      } else {
        StepCounts(b[i - 1], b[i], step);
      }
    }
  }

  /** In every version of the record, over all keepers and runs, the failures on which the backoff
      rests never exceed the resubmissions made, which are all generations but the first. */
  lemma {:induction false} FailuresNeverExceedResubmissions(b: seq<State>, i: nat, v: nat)
    requires Behavior(b) && i < |b| && v < |b[i].world.log|
    ensures var r := b[i].world.log[v].record;
            0 <= r.generation && 0 <= r.failures <= if r.generation == 0 then 0 else r.generation - 1
    decreases v
  {
    Reached(b, i);
    CountsReached(b, i);
    if v > 0 {
      FailuresNeverExceedResubmissions(b, i, v - 1);
      assert Counts(b[i].world.log[v - 1].record, b[i].world.log[v].record);
    }
  }
}
