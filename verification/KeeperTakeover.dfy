/** How a new leader takes a generation over from a tenure that marks it never submitted, and so
    exactly when such a mark stays true whatever happens: src/pipeline/job_keeper.py. */
module KeeperTakeover {
  import opened Basics
  import opened JobKeeper
  import opened KeeperProtocol
  import opened KeeperSafety
  import opened KeeperTheorems
  import opened KeeperMarks

  // --- from an empty listing there is always a decision ---------------------------------------

  lemma {:induction false} SortedExists(s: set<int>) returns (q: seq<int>)
    ensures Ascending(q) && Elements(q) == s
  {
    if s == {} {
      q := [];
    } else {
      MinExists(s);
      var m :| m in s && forall x :: x in s ==> m <= x;
      var rest := SortedExists(s - {m});
      q := [m] + rest;
      Prepended(m, rest, s - {m});
    }
  }

  lemma Prepended(m: int, rest: seq<int>, s: set<int>)
    requires Ascending(rest) && Elements(rest) == s && forall x :: x in s ==> m < x
    ensures Ascending([m] + rest) && Elements([m] + rest) == {m} + s
  {
    assert forall i :: 0 <= i < |rest| ==> rest[i] in Elements(rest);
  }

  /** The last holder below `current` of each id, among these generations. */
  ghost predicate HoldersAmong(attempts: map<int, Attempt>, current: int, keys: set<int>, m: map<JobId, int>) {
    && (forall id :: id in m ==> m[id] in keys && m[id] < current && Holds(attempts, m[id], id))
    && (forall g, id :: g in keys && g < current && Holds(attempts, g, id) ==> id in m && g <= m[id])
  }

  lemma {:induction false} HoldersExist(attempts: map<int, Attempt>, current: int, keys: set<int>)
    returns (m: map<JobId, int>)
    requires keys <= attempts.Keys
    ensures HoldersAmong(attempts, current, keys, m)
    decreases |keys|
  {
    if keys == {} {
      m := map[];
    } else {
      var g := Pick(keys);
      var rest := HoldersExist(attempts, current, keys - {g});
      m := rest;
      if g < current && attempts[g].jobId.Some? {
        var id := attempts[g].jobId.value;
        if id !in rest || rest[id] < g {
          m := rest[id := g];
        }
      }
      assert forall h :: h in keys ==> h == g || h in keys - {g};
    }
  }

  lemma SupersededExists(attempts: map<int, Attempt>, current: int) returns (m: map<JobId, int>)
    ensures IsSuperseded(attempts, [], current, m)
  {
    m := HoldersExist(attempts, current, attempts.Keys);
    forall id
      ensures id in m <==> RecordedBelow(attempts, current, id)
      ensures id in m ==> LastHolder(attempts, current, m[id], id)
    {
    }
  }

  /** What the cycle judges of the current generation. */
  ghost function Judged(record: Record, states: map<JobId, Answer>, mem: Mem, now: real): Verdict {
    Judge(record.generation, Owing(record, [], states, mem.neverSubmitted), states, record.failures, mem.firstSeen, now)
  }

  ghost predicate AllOver(states: map<JobId, Answer>) {
    forall id :: id in states ==> Over(states[id])
  }

  lemma DecisionExists(record: Record, states: map<JobId, Answer>, mem: Mem, now: real) returns (plan: Plan, mem': Mem)
    requires AllOver(states)
    ensures Decides(record, Some([]), states, mem, now, "", plan, mem') && plan.cancel == []
    ensures plan.submit.Some? <==> Advances(Judged(record, states, mem, now), record.generation, now)
    ensures mem'.neverSubmitted <= mem.neverSubmitted
  {
    var current := record.generation;
    var attempts, v := Owing(record, [], states, mem.neverSubmitted), Judged(record, states, mem, now);
    var advance := Advances(v, current, now);
    var next := JobKeeper.Next(record, attempts, v, advance, "");
    var m := SupersededExists(Resolve(record.attempts, []), current);
    assert CancelsAmong([], m, states, m.Keys);
    var unresolved := SortedExists(WithoutId(next.attempts));
    var jobId := if current in attempts then attempts[current].jobId else None;
    var state := if current != 0 && jobId.Some? && jobId.value in states then Some(states[jobId.value]) else None;
    plan := Plan([], if next != record then Some(next) else None, if advance then Some(current + 1) else None,
                 Report(current, StatusOf(v, advance), jobId, state, [], unresolved));
    mem' := Mem(FirstSeenAfter(record, Some([]), states, mem, now), set g | g in mem.neverSubmitted && g >= current);
  }

  // --- and three cycles of a new tenure advance -------------------------------------------------

  /** The current generation's job, if its id is known, was answered as over. */
  ghost predicate Answered(record: Record, states: map<JobId, Answer>) {
    var g := record.generation;
    g in record.attempts && record.attempts[g].jobId.Some? ==> Confirmed(states, record.attempts[g].jobId.value)
  }

  ghost predicate Unnamed(record: Record) {
    var g := record.generation;
    g != 0 && g in record.attempts && record.attempts[g].jobId.None?
  }

  lemma CurrentOwing(record: Record, states: map<JobId, Answer>)
    ensures var g, owing := record.generation, Owing(record, [], states, {});
            && (g in owing <==> g in record.attempts) && (g in owing ==> owing[g] == record.attempts[g])
  {
  }

  ghost function SeenThen(record: Record, states: map<JobId, Answer>, seen: map<Key, real>, now: real): map<Key, real> {
    FirstSeenAfter(record, Some([]), states, Mem(seen, {}), now)
  }

  /** The uncertainty clock runs from the first cycle, and so does the backoff's if it runs at all. */
  ghost predicate Once(record: Record, seen: map<Key, real>) {
    var g := record.generation;
    && (Unnamed(record) ==> KeyUnresolved(g) in seen && seen[KeyUnresolved(g)] == 0.0)
    && (KeyStopped(g) in seen ==> seen[KeyStopped(g)] == 0.0)
  }

  lemma FirstCycle(record: Record, states: map<JobId, Answer>)
    requires Answered(record, states)
    ensures Once(record, SeenThen(record, states, map[], 0.0))
  {
    CurrentOwing(record, states);
  }

  /** By the second the generation is found stopped. */
  ghost predicate Twice(record: Record, seen: map<Key, real>) {
    var g := record.generation;
    && (Unnamed(record) ==> KeyUnresolved(g) in seen && seen[KeyUnresolved(g)] == 0.0)
    && KeyStopped(g) in seen && seen[KeyStopped(g)] <= 1000.0
  }

  lemma SecondCycle(record: Record, states: map<JobId, Answer>, seen: map<Key, real>)
    requires Answered(record, states) && Once(record, seen)
    ensures Twice(record, SeenThen(record, states, seen, 1000.0))
  {
    CurrentOwing(record, states);
  }

  lemma ThirdCycle(record: Record, states: map<JobId, Answer>, seen: map<Key, real>)
    requires Answered(record, states) && Twice(record, seen)
    ensures Advances(Judged(record, states, Mem(seen, {}), 2000.0), record.generation, 2000.0)
  {
    CurrentOwing(record, states);
    BackoffMonotone(record.failures, record.failures);
  }

  // --- a run of it ------------------------------------------------------------------------------------

  function Last(b: seq<State>): State
    requires b != []
  {
    b[|b| - 1]
  }

  lemma Extend(b: seq<State>, s': State, step: Step)
    requires Behavior(b) && Takes(Last(b), s', step)
    ensures Behavior(b + [s']) && Last(b + [s']) == s'
  {
    var b' := b + [s'];
    forall i: nat | i + 1 < |b'|
      ensures Linked(b', i)
    {
      if i + 1 < |b| {
        assert Linked(b, i);
      }
    }
  }

  function Move(s: State, e: nat, t: Tenure): State {
    s.(tenures := s.tenures[e := t])
  }

  lemma LeaderArrives(b: seq<State>) returns (b': seq<State>)
    requires Behavior(b)
    ensures Behavior(b') && b <= b'
    ensures Last(b').world == Last(b).world.(epoch := Last(b).world.epoch + 1)
    ensures Last(b').tenures == Last(b).tenures[Last(b).world.epoch + 1 := Tenure(Idle, Mem(map[], {}))]
  {
    var s := Last(b);
    var s' := State(s.world.(epoch := s.world.epoch + 1), s.tenures[s.world.epoch + 1 := Tenure(Idle, Mem(map[], {}))]);
    Extend(b, s', SClaim);
    b' := b + [s'];
  }

  /** A tenure under the current epoch, about to start a cycle. */
  ghost predicate Poised(s: State, n: nat, mem: Mem) {
    n in s.tenures && s.tenures[n] == Tenure(Idle, mem) && s.world.epoch == n && s.world.log != []
  }

  /** These answers can be had: none, or that a recorded job is not found. */
  ghost predicate Askable(w: World, states: map<JobId, Answer>) {
    && w.log != []
    && (states == map[] ||
        exists id :: states == map[id := NotFound] && id in w.jobs && w.jobs[id].fate == NotFound
                     && LookupNeeded(Current(w.log), [], id))
  }

  lemma Gathers(b: seq<State>, n: nat, mem: Mem, states: map<JobId, Answer>) returns (b': seq<State>)
    requires Behavior(b) && Poised(Last(b), n, mem) && Askable(Last(b).world, states)
    ensures Behavior(b') && b <= b'
    ensures Last(b') == Move(Last(b), n, Tenure(Gathering(|Last(b).world.log| - 1, Some([]), states), mem))
  {
    b' := Lists(b, n, mem);
    if states != map[] {
      var id :| states == map[id := NotFound] && id in Last(b).world.jobs && Last(b).world.jobs[id].fate == NotFound
                && LookupNeeded(Current(Last(b).world.log), [], id);
      var s := Last(b');
      var s' := Move(s, n, Tenure(Gathering(|s.world.log| - 1, Some([]), map[][id := NotFound]), mem));
      Extend(b', s', SLookup(n, id));
      b' := b' + [s'];
    }
  }

  lemma Lists(b: seq<State>, n: nat, mem: Mem) returns (b': seq<State>)
    requires Behavior(b) && Poised(Last(b), n, mem)
    ensures Behavior(b') && b <= b'
    ensures Last(b') == Move(Last(b), n, Tenure(Gathering(|Last(b).world.log| - 1, Some([]), map[]), mem))
  {
    var v := |Last(b).world.log| - 1;
    var s1 := Move(Last(b), n, Tenure(Reading(v), mem));
    Extend(b, s1, SRead(n));
    var s2 := Move(s1, n, Tenure(Gathering(v, Some([]), map[]), mem));
    Extend(b + [s1], s2, SList(n, Some([])));
    b' := b + [s1] + [s2];
  }

  /** A whole cycle up to what it is about to do. */
  lemma Cycles(b: seq<State>, n: nat, seen: map<Key, real>, states: map<JobId, Answer>, now: real)
    returns (b': seq<State>, plan: Plan)
    requires Behavior(b) && Poised(Last(b), n, Mem(seen, {})) && Askable(Last(b).world, states)
    ensures Behavior(b') && b <= b'
    ensures var s, record := Last(b), Current(Last(b).world.log);
            && (plan.submit.Some? <==> Advances(Judged(record, states, Mem(seen, {}), now), record.generation, now))
            && (plan.submit.Some? ==>
                plan.record.Some? && plan.submit.value == plan.record.value.generation == record.generation + 1)
            && Last(b') == Move(s, n, Tenure(Acting(|s.world.log| - 1, [], Signed(plan.record, n), plan.submit),
                                             Mem(SeenThen(record, states, seen, now), {})))
  {
    var mem', s, record := Mem(map[], {}), Last(b), Current(Last(b).world.log);
    b' := Gathers(b, n, Mem(seen, {}), states);
    plan, mem' := DecisionExists(record, states, Mem(seen, {}), now);
    assert mem' == Mem(SeenThen(record, states, seen, now), {});
    DecisionRecord(record, Some([]), states, Mem(seen, {}), now, "", plan, mem');
    var s' := Move(s, n, Tenure(Acting(|s.world.log| - 1, [], Signed(plan.record, n), plan.submit), mem'));
    Extend(b', s', SDecide(n, now, "", plan, mem'));
    b' := b' + [s'];
  }

  /** A cycle that comes to nothing but what it has seen. */
  lemma Watches(b: seq<State>, n: nat, seen: map<Key, real>, states: map<JobId, Answer>, now: real)
    returns (b': seq<State>)
    requires Behavior(b) && Poised(Last(b), n, Mem(seen, {})) && Askable(Last(b).world, states)
    ensures Behavior(b') && b <= b'
    ensures Last(b') == Move(Last(b), n, Tenure(Idle, Mem(SeenThen(Current(Last(b).world.log), states, seen, now), {})))
  {
    var plan;
    b', plan := Cycles(b, n, seen, states, now);
    var s' := Move(Last(b), n, Tenure(Idle, Mem(SeenThen(Current(Last(b).world.log), states, seen, now), {})));
    Extend(b', s', SAbandon(n));
    b' := b' + [s'];
  }

  lemma WatchesTwice(b: seq<State>, n: nat, states: map<JobId, Answer>, first: map<Key, real>, second: map<Key, real>)
    returns (b': seq<State>)
    requires Behavior(b) && Poised(Last(b), n, Mem(map[], {})) && Askable(Last(b).world, states)
    requires first == SeenThen(Current(Last(b).world.log), states, map[], 0.0)
    requires second == SeenThen(Current(Last(b).world.log), states, first, 1000.0)
    ensures Behavior(b') && b <= b' && Last(b') == Move(Last(b), n, Tenure(Idle, Mem(second, {})))
  {
    b' := Watches(b, n, map[], states, 0.0);
    b' := Watches(b', n, first, states, 1000.0);
  }

  /** About to write this record over the current one, and then to submit its generation. */
  function Intending(w: World, record: Record, seen: map<Key, real>): Tenure
    requires w.log != []
  {
    Tenure(Acting(|w.log| - 1, [], Some(record), Some(record.generation)), Mem(seen, {}))
  }

  /** The new leader's intent for the next generation, ready to be written. */
  lemma ComesToIntend(b: seq<State>, n: nat, states: map<JobId, Answer>)
    returns (b': seq<State>, record: Record, seen: map<Key, real>)
    requires Behavior(b) && Poised(Last(b), n, Mem(map[], {})) && Askable(Last(b).world, states)
    requires Answered(Current(Last(b).world.log), states)
    ensures Behavior(b') && b <= b' && record.generation == Current(Last(b).world.log).generation + 1
    ensures Last(b') == Move(Last(b), n, Intending(Last(b).world, record, seen))
  {
    var s, now := Last(b), Current(Last(b).world.log);
    var first := SeenThen(now, states, map[], 0.0);
    var second := SeenThen(now, states, first, 1000.0);
    FirstCycle(now, states);
    SecondCycle(now, states, first);
    ThirdCycle(now, states, second);
    b' := WatchesTwice(b, n, states, first, second);
    var plan;
    b', plan := Cycles(b', n, second, states, 2000.0);
    seen := SeenThen(now, states, second, 2000.0);
    record := plan.record.value.(epoch := Some(n));
  }

  /** Written, confirmed, called and run. */
  lemma Finishes(b: seq<State>, n: nat, record: Record, seen: map<Key, real>) returns (b': seq<State>)
    requires Behavior(b) && n in Last(b).tenures && Last(b).world.epoch == n && Last(b).world.log != []
    requires Last(b).tenures[n] == Intending(Last(b).world, record, seen)
    requires forall wid :: wid in Last(b).world.outcomes ==> wid in Last(b).world.writes
    ensures Behavior(b') && b <= b' && record.generation in Last(b').world.submissions
    ensures forall o :: o in Last(b).tenures && o != n ==>
              o in Last(b').tenures && Last(b').tenures[o] == Last(b).tenures[o]
  {
    b' := Confirms(b, n, record, seen);
    b' := Calls(b', n, |Last(b).world.log|, record.generation, Mem(seen, {}));
  }

  lemma Confirms(b: seq<State>, n: nat, record: Record, seen: map<Key, real>) returns (b': seq<State>)
    requires Behavior(b) && n in Last(b).tenures && Last(b).world.epoch == n && Last(b).world.log != []
    requires Last(b).tenures[n] == Intending(Last(b).world, record, seen)
    requires forall wid :: wid in Last(b).world.outcomes ==> wid in Last(b).world.writes
    ensures Behavior(b') && b <= b'
    ensures Last(b').tenures ==
              Last(b).tenures[n := Tenure(Ready(|Last(b).world.log|, record.generation), Mem(seen, {}))]
  {
    var s, w := Last(b), Last(b).world;
    var v := |w.log|;
    var wid := NoWrite(w.writes.Keys);
    var w1 := Send(w, wid, Write(n, record, v - 1));
    var s1 := Move(s, n, Tenure(AwaitIntent(wid, Some(record.generation)), Mem(seen, {}))).(world := w1);
    Extend(b, s1, SIssue(n, wid));
    var s2 := s1.(world := w1.(log := w1.log + [Entry(record, n)], outcomes := w1.outcomes[wid := Applied(v)]));
    Extend(b + [s1], s2, SCommit(wid));
    var s3 := Move(s2, n, Tenure(Ready(v, record.generation), Mem(seen, {})));
    Extend(b + [s1] + [s2], s3, SConfirm(n));
    b' := b + [s1] + [s2] + [s3];
  }

  lemma Calls(b: seq<State>, n: nat, v: nat, g: int, mem: Mem) returns (b': seq<State>)
    requires Behavior(b) && n in Last(b).tenures && Last(b).tenures[n] == Tenure(Ready(v, g), mem)
    ensures Behavior(b') && b <= b' && g in Last(b').world.submissions
    ensures forall o :: o in Last(b).tenures && o != n ==>
              o in Last(b').tenures && Last(b').tenures[o] == Last(b).tenures[o]
  {
    var s, mem' := Last(b), mem.(neverSubmitted := mem.neverSubmitted - {g});
    var w := s.world.(calls := s.world.calls[g := Call(n, v)]);
    var s1 := Move(s, n, Tenure(Calling(v, g, false), mem')).(world := w);
    Extend(b, s1, SCall(n));
    b' := RunsCommand(b + [s1], n, v, g, mem');
  }

  lemma RunsCommand(b: seq<State>, n: nat, v: nat, g: int, mem: Mem) returns (b': seq<State>)
    requires Behavior(b) && n in Last(b).tenures && Last(b).tenures[n] == Tenure(Calling(v, g, false), mem)
    ensures Behavior(b') && b <= b' && g in Last(b').world.submissions
    ensures forall o :: o in Last(b).tenures && o != n ==>
              o in Last(b').tenures && Last(b').tenures[o] == Last(b).tenures[o]
  {
    var s := Last(b);
    var w := s.world.(submissions := s.world.submissions[g := InFlight]);
    var s' := Move(s, n, Tenure(Calling(v, g, true), mem)).(world := w);
    Extend(b, s', SRun(n));
    b' := b + [s'];
  }

  // --- which generations are marked --------------------------------------------------------------------

  lemma GenInRange(log: seq<Entry>, v: nat)
    requires LogOk(log) && v < |log|
    ensures 0 <= Gen(log, v) <= Current(log).generation
  {
    GenMonotone(log, 0, v);
    GenMonotone(log, v, |log| - 1);
  }

  ghost predicate InRange(log: seq<Entry>, never: set<int>) {
    log != [] && forall g :: g in never ==> 1 <= g <= Current(log).generation + 1
  }

  /** A mark is of a generation that was brought in, or is the next to be. */
  lemma PhaseInRange(w: World, e: nat, t: Tenure)
    requires WorldOk(w) && TenureOk(w, e, t)
    ensures t.phase.AwaitIntent? && t.phase.submit.Some? ==> InRange(w.log, {t.phase.submit.value})
    ensures t.phase.Ready? || t.phase.Calling? ==> InRange(w.log, {t.phase.generation})
  {
    match t.phase
    case AwaitIntent(wid, _) => GenInRange(w.log, w.writes[wid].version);
    case Ready(v, _) => GenInRange(w.log, v); GenInRange(w.log, v - 1);
    case Calling(v, _, _) => GenInRange(w.log, v); GenInRange(w.log, v - 1);
    case _ =>
  }

  lemma RangeStep(s: State, s': State, e: nat)
    requires Inv(s) && KeeperTheorems.Next(s, s') && e in s.tenures && InRange(s.world.log, Never(s, e))
    requires LogOk(s'.world.log)
    ensures e in s'.tenures && InRange(s'.world.log, Never(s', e))
  {
    var step :| Takes(s, s', step);
    if step.SDecide? {
      DecideDropsMarks(s, s', step, e);
    } else {
      NeverGrows(s, s', step, e);
      PhaseInRange(s.world, e, s.tenures[e]);
    }
    StepWorld(s, s');
    GenInRange(s'.world.log, |s.world.log| - 1);
  }

  lemma {:induction false} MarksInRange(b: seq<State>, i: nat, e: nat)
    requires Behavior(b) && i < |b| && e in b[i].tenures
    ensures InRange(b[i].world.log, Never(b[i], e))
  {
    assert i > 0;
    Reached(b, i - 1);
    LogReached(b, i);
    assert Linked(b, i - 1);
    if e in b[i - 1].tenures {
      MarksInRange(b, i - 1, e);
      RangeStep(b[i - 1], b[i], e);
    } else {
      NewTenure(b[i - 1], b[i], e);
    }
  }

  /** Every generation up to the record's was brought in by some version. */
  lemma {:induction false} CreatorExists(log: seq<Entry>, n: nat, g: int) returns (v: nat)
    requires LogOk(log) && n < |log| && 1 <= g <= Gen(log, n)
    ensures Creates(log, v, g)
    decreases n
  {
    assert n > 0;
    assert StepsByOne(Gen(log, n - 1), Gen(log, n));
    if g <= Gen(log, n - 1) {
      v := CreatorExists(log, n - 1, g);
    } else {
      v := n;
    }
  }

  // --- a generation nobody will run --------------------------------------------------------------------

  /** Brought in, not run, and nobody may run it any more. */
  ghost predicate Dormant(s: State, g: int) {
    (exists v: nat :: Creates(s.world.log, v, g)) && g !in s.world.submissions && !MayBeRun(s, g)
  }

  /** Who may run something after a step could before, unless the step brought it in just now. */
  lemma MayRunStep(s: State, s': State, step: Step, o: nat, g: int)
    requires Takes(s, s', step) && !step.SCommit? && o in s'.tenures && MayRun(s'.world.outcomes, At(s', o), g)
    requires forall wid :: wid in s.world.outcomes ==> wid in s.world.writes
    ensures o in s.tenures && MayRun(s.world.outcomes, At(s, o), g)
  {
  }

  lemma MayRunCommit(s: State, s': State, wid: nat, o: nat, g: int)
    requires Inv(s) && Commit(s, s', wid) && o in s'.tenures && MayRun(s'.world.outcomes, At(s', o), g)
    requires exists v: nat :: Creates(s.world.log, v, g)
    ensures o in s.tenures && MayRun(s.world.outcomes, At(s, o), g)
  {
    var v: nat :| Creates(s.world.log, v, g);
    GenInRange(s.world.log, v);
    assert TenureOk(s.world, o, s.tenures[o]);
  }

  lemma SubmissionsStep(s: State, s': State, step: Step, g: int)
    requires Takes(s, s', step) && g !in s.world.submissions && !MayBeRun(s, g)
    ensures g !in s'.world.submissions
  {
    if step.SRun? {
      assert !MayRun(s.world.outcomes, s.tenures[step.e].phase, g);
    } else if !step.SCall? {
      CallsUnchanged(s, s', step);
    }
  }

  lemma DormantStep(s: State, s': State, g: int)
    requires Inv(s) && KeeperTheorems.Next(s, s') && Dormant(s, g)
    ensures Dormant(s', g)
  {
    var step :| Takes(s, s', step);
    StepWorld(s, s');
    var v: nat :| Creates(s.world.log, v, g);
    assert Creates(s'.world.log, v, g);
    SubmissionsStep(s, s', step, g);
    NoNewRunner(s, s', step, g);
  }

  lemma NoNewRunner(s: State, s': State, step: Step, g: int)
    requires Inv(s) && Takes(s, s', step) && Dormant(s, g)
    ensures !MayBeRun(s', g)
  {
    forall o | o in s'.tenures
      ensures !MayRun(s'.world.outcomes, At(s', o), g)
    {
      if MayRun(s'.world.outcomes, At(s', o), g) {
        if step.SCommit? {
          MayRunCommit(s, s', step.wid, o, g);
        } else {
          MayRunStep(s, s', step, o, g);
        }
      }
    }
  }

  lemma {:induction false} DormantAlong(b: seq<State>, i: nat, j: nat, g: int)
    requires Behavior(b) && i <= j < |b| && Dormant(b[i], g)
    ensures Dormant(b[j], g)
    decreases j
  {
    if i < j {
      DormantAlong(b, i, j - 1, g);
      DormantNext(b, j - 1, g);
    }
  }

  lemma DormantNext(b: seq<State>, i: nat, g: int)
    requires Behavior(b) && i + 1 < |b| && Dormant(b[i], g)
    ensures Dormant(b[i + 1], g)
  {
    Reached(b, i);
    assert Linked(b, i);
    DormantStep(b[i], b[i + 1], g);
  }

  // --- exactly when a mark stays true ----------------------------------------------------------------

  ghost predicate MarkTrue(s: State, e: nat, g: int) {
    e in s.tenures && g in Never(s, e) ==> g !in s.world.submissions
  }

  /** In this state and in every continuation of the run from it. */
  ghost predicate StaysTrue(b: seq<State>, i: nat, e: nat, g: int)
    requires i < |b|
  {
    forall c: seq<State> :: Behavior(c) && b[..i + 1] <= c ==> MarkTrue(Last(c), e, g)
  }

  /** The generation has not been run, and it was brought in: by the mark's own tenure, or by another
      that may no longer run it. */
  ghost predicate Secure(s: State, e: nat, g: int) {
    && g !in s.world.submissions
    && exists v: nat, o: nat :: CreatedBy(s.world.log, v, g, o) && (o == e || !MayStillRun(s, o, g))
  }

  predicate MayStillRun(s: State, o: nat, g: int) {
    o in s.tenures && MayRun(s.world.outcomes, At(s, o), g)
  }

  lemma Prefix(b: seq<State>, n: nat)
    requires Behavior(b) && 0 < n <= |b|
    ensures Behavior(b[..n])
  {
    forall i: nat | i + 1 < n
      ensures Linked(b[..n], i)
    {
      assert Linked(b, i);
    }
  }

  /** A mark stays true, whoever leads and whatever is lost or late, if and only if its generation was
      not run and was brought in by its own tenure, or by another that may no longer run it. */
  lemma MarkStaysTrueIff(b: seq<State>, i: nat, e: nat, g: int)
    requires Behavior(b) && i < |b| && e in b[i].tenures && g in Never(b[i], e)
    ensures StaysTrue(b, i, e, g) <==> Secure(b[i], e, g)
  {
    if Secure(b[i], e, g) {
      forall c: seq<State> | Behavior(c) && b[..i + 1] <= c
        ensures MarkTrue(Last(c), e, g)
      {
        assert c[i] == b[..i + 1][i] == b[i];
        SecureStays(c, i, e, g);
      }
    } else {
      Prefix(b, i + 1);
      var c := GoesWrong(b[..i + 1], e, g);
      assert !MarkTrue(Last(c), e, g);
    }
  }

  lemma SecureStays(c: seq<State>, i: nat, e: nat, g: int)
    requires Behavior(c) && i < |c| && Secure(c[i], e, g)
    ensures MarkTrue(Last(c), e, g)
  {
    var v: nat, o: nat :| CreatedBy(c[i].world.log, v, g, o) && (o == e || !MayStillRun(c[i], o, g));
    var n := |c| - 1;
    if o == e {
      if e in c[n].tenures && g in Never(c[n], e) {
        OwnMarkStaysTrue(c, i, n, e, g, v);
      }
    } else {
      Reached(c, i);
      NobodyRuns(c[i], v, o, g);
      DormantAlong(c, i, n, g);
    }
  }

  lemma NobodyRuns(s: State, v: nat, o: nat, g: int)
    requires Inv(s) && CreatedBy(s.world.log, v, g, o) && !MayStillRun(s, o, g) && g !in s.world.submissions
    ensures Dormant(s, g)
  {
    forall q | q in s.tenures
      ensures !MayRun(s.world.outcomes, At(s, q), g)
    {
      if MayRun(s.world.outcomes, At(s, q), g) {
        var u := RunnerIsCreator(s.world, q, s.tenures[q], g);
        CreatorUnique(s.world.log, u, v, g);
      }
    }
  }

  /** Otherwise there is a continuation in which it is wrong. */
  lemma GoesWrong(b: seq<State>, e: nat, g: int) returns (c: seq<State>)
    requires Behavior(b) && e in Last(b).tenures && g in Never(Last(b), e) && !Secure(Last(b), e, g)
    ensures Behavior(c) && b <= c && !MarkTrue(Last(c), e, g)
  {
    var s := Last(b);
    Reached(b, |b| - 1);
    if g in s.world.submissions {
      c := b;
    } else if v: nat :| Creates(s.world.log, v, g) {
      var o := s.world.log[v].author;
      assert CreatedBy(s.world.log, v, g, o);
      c := RunsIt(b, o, g);
    } else {
      MarksInRange(b, |b| - 1, e);
      if g <= Current(s.world.log).generation {
        var v := CreatorExists(s.world.log, |s.world.log| - 1, g);
      }
      c := TakesOver(b, e);
    }
  }

  /** Whoever may still run it does. */
  lemma RunsIt(b: seq<State>, o: nat, g: int) returns (c: seq<State>)
    requires Behavior(b) && MayStillRun(Last(b), o, g)
    ensures Behavior(c) && b <= c && g in Last(c).world.submissions
    ensures forall q :: q in Last(b).tenures && q != o ==>
              q in Last(c).tenures && Last(c).tenures[q] == Last(b).tenures[q]
  {
    var s, t := Last(b), Last(b).tenures[o];
    match t.phase
    case Calling(v, _, _) => c := RunsCommand(b, o, v, g, t.mem);
    case Ready(v, _) => c := Calls(b, o, v, g, t.mem);
    case AwaitIntent(wid, _) =>
      var s' := Move(s, o, Tenure(Ready(s.world.outcomes[wid].version, g), t.mem));
      Extend(b, s', SConfirm(o));
      c := Calls(b + [s'], o, s.world.outcomes[wid].version, g, t.mem);
  }

  /** A new leader brings in the next generation and submits it. */
  lemma TakesOver(b: seq<State>, e: nat) returns (c: seq<State>)
    requires Behavior(b) && e in Last(b).tenures
    ensures Behavior(c) && b <= c && Last(b).world.log != []
    ensures Current(Last(b).world.log).generation + 1 in Last(c).world.submissions
    ensures e in Last(c).tenures && Last(c).tenures[e] == Last(b).tenures[e]
  {
    var n := Last(b).world.epoch + 1;
    NotYet(b, e);
    c := LeaderArrives(b);
    c := Supplants(c, n, e);
  }

  /** A tenure there already is not of the next epoch. */
  lemma NotYet(b: seq<State>, e: nat)
    requires Behavior(b) && e in Last(b).tenures
    ensures e <= Last(b).world.epoch && Last(b).world.log != []
  {
    Reached(b, |b| - 1);
    assert TenureOk(Last(b).world, e, Last(b).tenures[e]);
  }

  lemma Supplants(b: seq<State>, n: nat, e: nat) returns (c: seq<State>)
    requires Behavior(b) && Poised(Last(b), n, Mem(map[], {})) && e in Last(b).tenures && e != n
    ensures Behavior(c) && b <= c && Current(Last(b).world.log).generation + 1 in Last(c).world.submissions
    ensures e in Last(c).tenures && Last(c).tenures[e] == Last(b).tenures[e]
  {
    var states, record, seen;
    c, states := Asks(b, n);
    c, record, seen := ComesToIntend(c, n, states);
    OutcomesKnown(c);
    c := Finishes(c, n, record, seen);
  }

  lemma OutcomesKnown(b: seq<State>)
    requires Behavior(b)
    ensures forall wid :: wid in Last(b).world.outcomes ==> wid in Last(b).world.writes
  {
    Reached(b, |b| - 1);
  }

  /** The current generation's job, if its id is known, is gone by the time it is asked about. */
  lemma Asks(b: seq<State>, n: nat) returns (c: seq<State>, states: map<JobId, Answer>)
    requires Behavior(b) && Poised(Last(b), n, Mem(map[], {}))
    ensures Behavior(c) && b <= c && Poised(Last(c), n, Mem(map[], {})) && Askable(Last(c).world, states)
    ensures Last(c).world.log == Last(b).world.log && Last(c).tenures == Last(b).tenures
    ensures Answered(Current(Last(b).world.log), states)
  {
    Reached(b, |b| - 1);
    var s := Last(b);
    var record := Current(s.world.log);
    var g := record.generation;
    c, states := b, map[];
    if g in record.attempts && record.attempts[g].jobId.Some? {
      var id := record.attempts[g].jobId.value;
      assert IdsTrue(s.world.jobs, record.attempts);
      assert JobKeeper.Holds(record.attempts, g, id);
      var s' := s.(world := s.world.(jobs := s.world.jobs[id := s.world.jobs[id].(fate := NotFound)]));
      Extend(b, s', SJob(id, NotFound));
      c, states := b + [s'], map[id := NotFound];
      assert LookupNeeded(record, [], id);
    }
  }

  /** A mark can outlive its truth: the first leader's intent is lost and marked, the second brings in
      the same generation and submits it. */
  lemma MarkUnsoundOnceDeposed() returns (b: seq<State>)
    ensures Behavior(b) && 1 in Last(b).tenures
    ensures 1 in Never(Last(b), 1) && 1 in Last(b).world.submissions
  {
    b := [State(World(0, [Entry(EMPTY_RECORD, 0)], map[], map[], map[], map[], map[], {}), map[])];
    b := LeaderArrives(b);
    b := MarksNext(b, 1);
    b := TakesOver(b, 1);
  }

  /** A new leader's first intent is issued, and its reply never comes. */
  lemma MarksNext(b: seq<State>, n: nat) returns (c: seq<State>)
    requires Behavior(b) && Poised(Last(b), n, Mem(map[], {})) && Current(Last(b).world.log).attempts == map[]
    ensures Behavior(c) && b <= c && Last(c).world.log == Last(b).world.log && n in Last(c).tenures
    ensures Current(Last(b).world.log).generation + 1 in Never(Last(c), n)
  {
    var record, seen;
    c, record, seen := ComesToIntend(b, n, map[]);
    var s := Last(c);
    var wid := NoWrite(s.world.writes.Keys);
    var w := Send(s.world, wid, Write(n, record, |s.world.log| - 1));
    var s1 := Move(s, n, Tenure(AwaitIntent(wid, Some(record.generation)), Mem(seen, {}))).(world := w);
    Extend(c, s1, SIssue(n, wid));
    var s2 := Move(s1, n, Tenure(Idle, Mem(seen, {} + {record.generation})));
    Extend(c + [s1], s2, SUnconfirmed(n));
    c := c + [s1] + [s2];
  }
}
