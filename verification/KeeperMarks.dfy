/** When a "never submitted" mark is true: src/pipeline/job_keeper.py, `Memory.never_submitted`. */
module KeeperMarks {
  import opened JobKeeper
  import opened KeeperProtocol
  import opened KeeperSafety
  import opened KeeperTheorems

  /** If a marked generation was submitted after all, another tenure called Flink for it. */
  ghost predicate MarksTrue(w: World, e: nat, never: set<int>) {
    forall g :: g in never && g in w.submissions ==> g in w.calls && w.calls[g].epoch != e
  }

  /** The mark a step adds, if any. */
  function Added(s: State, step: Step, e: nat): set<int>
    requires e in s.tenures
  {
    var p := At(s, e);
    if step == SUnconfirmed(e) && p.AwaitIntent? && p.submit.Some? then {p.submit.value}
    else if step == SPause(e) && p.Ready? then {p.generation}
    else if step.SNeverRan? && step.e == e && p.Calling? && !p.ran then {p.generation}
    else {}
  }

  lemma NeverGrows(s: State, s': State, step: Step, e: nat)
    requires Takes(s, s', step) && !step.SDecide? && e in s.tenures
    ensures e in s'.tenures && Never(s', e) <= Never(s, e) + Added(s, step, e)
  {
  }

  lemma DecideDropsMarks(s: State, s': State, step: Step, e: nat)
    requires Takes(s, s', step) && step.SDecide? && e in s.tenures
    ensures e in s'.tenures && Never(s', e) <= Never(s, e)
  {
    if step.e == e {
      var p := At(s, e);
      DecisionRecord(s.world.log[p.version].record, p.listed, p.states, s.tenures[e].mem, step.now, step.wall,
                     step.plan, step.mem);
    }
  }

  /** A mark added is of a generation that this tenure has never called Flink for, or for which the
      command did not run. */
  lemma AddedTrue(s: State, step: Step, e: nat)
    requires Inv(s) && e in s.tenures
    ensures MarksTrue(s.world, e, Added(s, step, e))
  {
    PhaseMarks(s.world, e, s.tenures[e]);
  }

  lemma PhaseMarks(w: World, e: nat, t: Tenure)
    requires WorldOk(w) && TenureOk(w, e, t)
    ensures t.phase.AwaitIntent? && t.phase.submit.Some? ==> MarksTrue(w, e, {t.phase.submit.value})
    ensures t.phase.Ready? ==> t.phase.generation !in w.submissions
    ensures t.phase.Calling? && !t.phase.ran ==> t.phase.generation !in w.submissions
  {
    if t.phase.Ready? {
      ReadyIsUncalled(w, e, t);
    }
  }

  /** Flink is called, or the command runs: by the tenure that brought the generation in, whose own
      mark is gone. */
  lemma MarkTested(s: State, s': State, o: nat, e: nat)
    requires Inv(s) && (CallFlink(s, s', o) || Run(s, s', o)) && e in s.tenures
    requires MarksTrue(s.world, e, Never(s, e))
    ensures e in s'.tenures && MarksTrue(s'.world, e, Never(s', e))
  {
    assert TenureOk(s.world, o, s.tenures[o]);
    if At(s, o).Ready? {
      ReadyIsUncalled(s.world, o, s.tenures[o]);
    }
  }

  /** Calls and submissions change in no other way than these; a submission that lands was there. */
  lemma CallsUnchanged(s: State, s': State, step: Step)
    requires Takes(s, s', step) && !step.SCall? && !step.SRun?
    ensures s'.world.calls == s.world.calls && s'.world.submissions.Keys == s.world.submissions.Keys
  {
    if !step.SClaim? && !step.SCommit? && !step.SLand? && !step.SJob? {
      KeeperStep(s, s', step);
    }
  }

  lemma MarksStep(s: State, s': State, e: nat)
    requires Inv(s) && KeeperTheorems.Next(s, s') && e in s.tenures && MarksTrue(s.world, e, Never(s, e))
    ensures e in s'.tenures && MarksTrue(s'.world, e, Never(s', e))
  {
    var step :| Takes(s, s', step);
    if step.SCall? || step.SRun? {
      MarkTested(s, s', step.e, e);
    } else {
      CallsUnchanged(s, s', step);
      if step.SDecide? {
        DecideDropsMarks(s, s', step, e);
      } else {
        NeverGrows(s, s', step, e);
        AddedTrue(s, step, e);
      }
    }
  }

  lemma {:induction false} MarksReached(b: seq<State>, i: nat, e: nat)
    requires Behavior(b) && i < |b| && e in b[i].tenures
    ensures MarksTrue(b[i].world, e, Never(b[i], e))
  {
    assert i > 0;
    Reached(b, i - 1);
    assert Linked(b, i - 1);
    if e in b[i - 1].tenures {
      MarksReached(b, i - 1, e);
      MarksStep(b[i - 1], b[i], e);
    } else {
      NewTenure(b[i - 1], b[i], e);
    }
  }

  lemma NewTenure(s: State, s': State, e: nat)
    requires KeeperTheorems.Next(s, s') && e !in s.tenures && e in s'.tenures
    ensures s'.tenures[e] == Tenure(Idle, Mem(map[], {}))
  {
  }

  /** Another tenure's intent for the generation was the one applied. */
  ghost predicate TakenOver(log: seq<Entry>, g: int, e: nat) {
    exists v: nat, o: nat :: CreatedBy(log, v, g, o) && o != e
  }

  /** In any state of any run, and whether or not its tenure has been deposed, a mark is wrong only
      if another tenure brought the generation in and called Flink for it itself. So one whose
      generation nobody brought in, or its own tenure did, is true; and while its epoch is
      current nobody else can have. */
  lemma MarkWrongOnlyIfTakenOver(b: seq<State>, i: nat, e: nat, g: int)
    requires Behavior(b) && i < |b| && e in b[i].tenures && g in Never(b[i], e)
    ensures g in b[i].world.submissions ==>
              TakenOver(b[i].world.log, g, e) && g in b[i].world.calls && b[i].world.calls[g].epoch != e
    ensures b[i].world.epoch == e ==> !TakenOver(b[i].world.log, g, e)
  {
    MarksReached(b, i, e);
    Reached(b, i);
    var w := b[i].world;
    assert TenureOk(w, e, b[i].tenures[e]);
    if g in w.submissions {
      assert CreatedBy(w.log, w.calls[g].version, g, w.calls[g].epoch);
    }
  }

  /** A mark of a generation that its own tenure brought in is true for as long as it is kept,
      whoever leads by then. */
  lemma OwnMarkStaysTrue(b: seq<State>, i: nat, j: nat, e: nat, g: int, v: nat)
    requires Behavior(b) && i <= j < |b| && CreatedBy(b[i].world.log, v, g, e)
    requires e in b[j].tenures && g in Never(b[j], e)
    ensures g !in b[j].world.submissions
  {
    LaterAlong(b, i, j);
    LogReached(b, j);
    MarkWrongOnlyIfTakenOver(b, j, e, g);
    if u: nat, o: nat :| CreatedBy(b[j].world.log, u, g, o) && o != e {
      CreatorUnique(b[j].world.log, u, v, g);
    }
  }

  /** Hence, while a tenure's epoch is current, a generation it marks has had no submission that
      ran, by anyone, and nobody may still run it but this tenure itself. */
  lemma NeverSubmittedIsSound(b: seq<State>, i: nat, e: nat, g: int)
    requires Behavior(b) && i < |b| && e in b[i].tenures && b[i].world.epoch == e && g in Never(b[i], e)
    ensures g !in b[i].world.submissions && forall id :: id in b[i].world.jobs ==> b[i].world.jobs[id].generation != g
    ensures forall o :: o in b[i].tenures && MayRun(b[i].world.outcomes, At(b[i], o), g) ==> o == e
  {
    MarkWrongOnlyIfTakenOver(b, i, e, g);
    Reached(b, i);
    var s := b[i];
    forall o | o in s.tenures && MayRun(s.world.outcomes, At(s, o), g)
      ensures o == e
    {
      var v := RunnerIsCreator(s.world, o, s.tenures[o], g);
      assert CreatedBy(s.world.log, v, g, o);
    }
  }
}
