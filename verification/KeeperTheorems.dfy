/** What the keeper protocol guarantees over every run, however keepers, ZooKeeper and Flink
    interleave: src/pipeline/job_keeper.py. */
module KeeperTheorems {
  import opened JobKeeper
  import opened KeeperProtocol
  import opened KeeperSafety

  ghost predicate Next(s: State, s': State) {
    exists step :: Takes(s, s', step)
  }

  ghost predicate Linked(b: seq<State>, i: nat)
    requires i + 1 < |b|
  {
    Next(b[i], b[i + 1])
  }

  ghost predicate Behavior(b: seq<State>) {
    b != [] && Init(b[0]) && forall i: nat :: i + 1 < |b| ==> Linked(b, i)
  }

  lemma {:induction false} Reached(b: seq<State>, i: nat)
    requires Behavior(b) && i < |b|
    ensures Inv(b[i])
  {
    if i == 0 {
      InitOk(b[0]);
    } else {
      Reached(b, i - 1);
      assert Linked(b, i - 1);
      var step :| Takes(b[i - 1], b[i], step);
      InvKept(b[i - 1], b[i], step);
    }
  }

  lemma InitOk(s: State)
    requires Init(s)
    ensures Inv(s)
  {
  }

  // --- what only grows ------------------------------------------------------------------

  /** The record's history, the calls and the jobs are only ever added to, and a write's
      outcome is final. */
  ghost predicate Later(w: World, w': World) {
    && w.log <= w'.log && w.epoch <= w'.epoch
    && (forall g :: g in w.calls ==> g in w'.calls && w'.calls[g] == w.calls[g])
    && (forall id :: id in w.jobs ==> id in w'.jobs && w'.jobs[id].generation == w.jobs[id].generation)
    && (forall i :: i in w.writes ==> i in w'.writes && w'.writes[i] == w.writes[i])
    && (forall i :: i in w.outcomes ==> i in w'.outcomes && w'.outcomes[i] == w.outcomes[i])
  }

  /** One step of the world: the record changes only under the current epoch. */
  ghost predicate OneStep(w: World, w': World) {
    && Later(w, w')
    && (w'.log == w.log || (|w'.log| == |w.log| + 1 && w'.log[|w.log|].author == w.epoch))
    && (forall i :: i in w'.outcomes && i !in w.outcomes && w'.outcomes[i].Applied? ==>
          i in w.writes && w.writes[i].epoch == w.epoch)
  }

  lemma CallStep(s: State, s': State, e: nat)
    requires Inv(s) && CallFlink(s, s', e)
    ensures OneStep(s.world, s'.world)
  {
    ReadyIsUncalled(s.world, e, s.tenures[e]);
  }

  lemma KeeperStep(s: State, s': State, step: Step)
    requires Takes(s, s', step) && !step.SClaim? && !step.SCall? && !step.SCommit? && !step.SRun? && !step.SLand?
    requires !step.SJob?
    ensures s'.world == s.world.(writes := s'.world.writes, cancelled := s'.world.cancelled)
    ensures forall i :: i in s.world.writes ==> i in s'.world.writes && s'.world.writes[i] == s.world.writes[i]
  {
  }

  lemma OutsideStep(s: State, s': State, step: Step)
    requires Takes(s, s', step) && (step.SClaim? || step.SCommit? || step.SRun? || step.SLand? || step.SJob?)
    ensures OneStep(s.world, s'.world)
  {
    match step
    case SCommit(wid) => CommitStep(s, s', wid);
    case SRun(e) => RunStep(s, s', e);
    case SLand(g, id, state) => LandStep(s, s', g, id, state);
    case _ =>
  }

  lemma CommitStep(s: State, s': State, wid: nat)
    requires Commit(s, s', wid)
    ensures OneStep(s.world, s'.world)
  {
  }

  lemma RunStep(s: State, s': State, e: nat)
    requires Run(s, s', e)
    ensures OneStep(s.world, s'.world)
  {
  }

  lemma LandStep(s: State, s': State, g: int, id: JobId, state: JobState)
    requires Land(s, s', g, id, state)
    ensures OneStep(s.world, s'.world)
  {
  }

  lemma StepWorld(s: State, s': State)
    requires Inv(s) && Next(s, s')
    ensures OneStep(s.world, s'.world)
  {
    var step :| Takes(s, s', step);
    if step.SCall? {
      CallStep(s, s', step.e);
    } else if step.SClaim? || step.SCommit? || step.SRun? || step.SLand? || step.SJob? {
      OutsideStep(s, s', step);
    } else {
      KeeperStep(s, s', step);
    }
  }

  lemma BehaviorStep(b: seq<State>, i: nat)
    requires Behavior(b) && i + 1 < |b|
    ensures OneStep(b[i].world, b[i + 1].world)
  {
    Reached(b, i);
    assert Linked(b, i);
    StepWorld(b[i], b[i + 1]);
  }

  lemma {:induction false} LaterAlong(b: seq<State>, i: nat, j: nat)
    requires Behavior(b) && i <= j < |b|
    ensures Later(b[i].world, b[j].world)
    decreases j
  {
    if i < j {
      LaterAlong(b, i, j - 1);
      BehaviorStep(b, j - 1);
    }
  }

  lemma LogReached(b: seq<State>, i: nat)
    requires Behavior(b) && i < |b|
    ensures LogOk(b[i].world.log)
  {
    Reached(b, i);
  }

  // --- the theorems ------------------------------------------------------------------------

  /** Conservation of owed work: a generation whose submission ran, and whose job is not
      confirmed over, is in the record, in every state of every run. */
  lemma OwedWorkConserved(b: seq<State>, i: nat, g: int)
    requires Behavior(b) && i < |b| && g in b[i].world.submissions
    ensures b[i].world.log != []
    ensures Settled(b[i].world.submissions, b[i].world.jobs, g) || g in Current(b[i].world.log).attempts
  {
    Reached(b, i);
  }

  /** Cancel safety: a job ever cancelled, by any keeper acting on however old a read, is of a
      generation strictly below the record's, then and in every later state. */
  lemma CancelsOnlySuperseded(b: seq<State>, i: nat, j: nat, id: JobId)
    requires Behavior(b) && i <= j < |b| && id in b[i].world.cancelled
    ensures b[j].world.log != [] && id in b[i].world.jobs && id in b[j].world.jobs
    ensures b[j].world.jobs[id].generation == b[i].world.jobs[id].generation < Current(b[j].world.log).generation
  {
    Reached(b, i);
    LogReached(b, j);
    LaterAlong(b, i, j);
    GenMonotone(b[j].world.log, |b[i].world.log| - 1, |b[j].world.log| - 1);
  }

  /** An id recorded under a generation, in any version, is the id of that generation's job. */
  lemma RecordedIdsAreTrue(b: seq<State>, i: nat, v: nat, g: int, id: JobId)
    requires Behavior(b) && i < |b| && v < |b[i].world.log| && Holds(b[i].world.log[v].record.attempts, g, id)
    ensures id in b[i].world.jobs && b[i].world.jobs[id].generation == g
  {
    Reached(b, i);
    assert IdsTrue(b[i].world.jobs, b[i].world.log[v].record.attempts);
  }

  /** The record changes only under the epoch current at that moment, one generation at a
      time, and never back. */
  lemma RecordStepsUnderCurrentEpoch(b: seq<State>, i: nat)
    requires Behavior(b) && i + 1 < |b|
    ensures LogOk(b[i].world.log) && LogOk(b[i + 1].world.log)
    ensures StepsByOne(Current(b[i].world.log).generation, Current(b[i + 1].world.log).generation)
    ensures b[i + 1].world.log == b[i].world.log
         || (&& |b[i + 1].world.log| == |b[i].world.log| + 1
             && b[i + 1].world.log[|b[i].world.log|].author == b[i].world.epoch)
  {
    LogReached(b, i);
    LogReached(b, i + 1);
    BehaviorStep(b, i);
    var log := b[i + 1].world.log;
    assert |log| > 1 ==> StepsByOne(Gen(log, |log| - 2), Gen(log, |log| - 1));
  }

  lemma {:induction false} AppliedUnder(b: seq<State>, i: nat, v: nat) returns (k: nat)
    requires Behavior(b) && i < |b| && 1 <= v < |b[i].world.log|
    ensures k < i && |b[k].world.log| == v && |b[k + 1].world.log| == v + 1
    ensures b[k].world.epoch == b[i].world.log[v].author
  {
    assert i != 0;
    BehaviorStep(b, i - 1);
    if v < |b[i - 1].world.log| {
      k := AppliedUnder(b, i - 1, v);
    } else {
      k := i - 1;
    }
  }

  lemma ConfirmedIntent(s: State, e: nat)
    requires Inv(s) && e in s.tenures && At(s, e).Ready?
    ensures CreatedBy(s.world.log, At(s, e).version, At(s, e).generation, e)
  {
  }

  /** `submit` is called only by the tenure whose own intent for that generation was applied,
      and at a moment when that tenure's epoch was current. */
  lemma SubmitFollowsFencedIntent(b: seq<State>, i: nat, e: nat) returns (k: nat)
    requires Behavior(b) && i + 1 < |b| && CallFlink(b[i], b[i + 1], e)
    ensures k < i && b[k].world.epoch == e && b[k].world.log != [] && b[k + 1].world.log != []
    ensures Current(b[k].world.log).generation == At(b[i], e).generation - 1
    ensures Current(b[k + 1].world.log).generation == At(b[i], e).generation
  {
    var v := At(b[i], e).version;
    assert CreatedBy(b[i].world.log, v, At(b[i], e).generation, e) by {
      Reached(b, i);
      ConfirmedIntent(b[i], e);
    }
    k := AppliedUnder(b, i, v);
    LaterAlong(b, k, i);
    LaterAlong(b, k + 1, i);
  }

  /** Over all keepers and the whole run, `submit` is called at most once per generation. */
  lemma SubmitAtMostOnce(b: seq<State>, i: nat, j: nat, e: nat, f: nat)
    requires Behavior(b) && i < j && j + 1 < |b|
    requires CallFlink(b[i], b[i + 1], e) && CallFlink(b[j], b[j + 1], f)
    ensures At(b[i], e).generation != At(b[j], f).generation
  {
    Reached(b, j);
    LaterAlong(b, i + 1, j);
    ReadyIsUncalled(b[j].world, f, b[j].tenures[f]);
  }

  /** At most one job ever carries a generation. */
  lemma OneJobPerGeneration(b: seq<State>, i: nat, j: nat, id: JobId, id': JobId)
    requires Behavior(b) && i <= j < |b| && id in b[i].world.jobs && id' in b[j].world.jobs
    requires b[i].world.jobs[id].generation == b[j].world.jobs[id'].generation
    ensures id == id'
  {
    Reached(b, j);
    LaterAlong(b, i, j);
  }

  /** Once the epoch has moved on, a write of the old tenure that was not yet processed is
      never applied: whatever a deposed keeper decided, wrongly or not, comes to nothing. */
  lemma {:induction false} DeposedWritesRejected(b: seq<State>, i: nat, j: nat, wid: nat)
    requires Behavior(b) && i <= j < |b|
    requires wid in b[i].world.writes && wid !in b[i].world.outcomes && b[i].world.writes[wid].epoch < b[i].world.epoch
    ensures wid in b[j].world.outcomes ==> b[j].world.outcomes[wid] == Rejected
    decreases j
  {
    if i < j {
      DeposedWritesRejected(b, i, j - 1, wid);
      LaterAlong(b, i, j - 1);
      BehaviorStep(b, j - 1);
    }
  }
}
