/** Unknown is never absent, over any sequence of cycles in one tenure: what the keeper's own
    clock means when a decision advances the generation or forgives its failures
    (src/pipeline/job_keeper.py, `decide` with `Memory`). */
module KeeperRuns {
  import opened Basics
  import opened JobKeeper

  /** What one cycle decided from, the tenure's memory at that moment included. */
  datatype Cycle = Cycle(record: Record, listed: Option<seq<Listed>>, states: map<JobId, Answer>, mem: Mem, now: real)

  /** The clocks a cycle leaves running. */
  ghost function SeenNext(c: Cycle): map<Key, real> {
    FirstSeenAfter(c.record, c.listed, c.states, c.mem, c.now)
  }

  ghost predicate Follows(cycles: seq<Cycle>, i: int)
    requires 0 < i < |cycles|
  {
    cycles[i].mem.firstSeen == SeenNext(cycles[i - 1])
  }

  /** The cycles of one tenure, in order: it starts out remembering nothing. Its marks may change
      between cycles. */
  ghost predicate OneTenure(cycles: seq<Cycle>) {
    && cycles != [] && cycles[0].mem.firstSeen == map[]
    && forall i :: 0 < i < |cycles| ==> Follows(cycles, i)
  }

  /** Neither unavailable nor stale: the cycle got as far as judging the current generation. */
  predicate Completed(c: Cycle) {
    c.listed.Some? && !NewerListed(c.listed.value, c.record.generation)
  }

  ghost function Attempts(c: Cycle): map<int, Attempt>
    requires Completed(c)
  {
    Owing(c.record, c.listed.value, c.states, c.mem.neverSubmitted)
  }

  ghost function VerdictOf(c: Cycle): Verdict
    requires Completed(c)
  {
    Judge(c.record.generation, Attempts(c), c.states, c.record.failures, c.mem.firstSeen, c.now)
  }

  /** The current generation has an attempt, and its job is `id`. */
  ghost predicate About(c: Cycle, g: int, id: JobId) {
    Completed(c) && c.record.generation == g && g != 0 && Holds(Attempts(c), g, id)
  }

  ghost predicate SawRunning(c: Cycle, g: int, id: JobId) {
    About(c, g, id) && id in c.states && c.states[id] == Is(Running)
  }

  ghost predicate Idless(c: Cycle, g: int) {
    Completed(c) && c.record.generation == g && g != 0 && g in Attempts(c) && Attempts(c)[g].jobId.None?
  }

  ghost predicate FoundStopped(c: Cycle, g: int) {
    Completed(c) && c.record.generation == g && VerdictOf(c).stopped
  }

  // --- what a clock means ----------------------------------------------------------------

  /** What a cycle saw that starts the clock. */
  ghost predicate Starts(c: Cycle, key: Key) {
    match key
    case KeyRunning(g, id) => SawRunning(c, g, id)
    case KeyUnresolved(g) => Idless(c, g)
    case KeyStopped(g) => FoundStopped(c, g)
  }

  /** What a cycle did not see, or the clock would have stopped: another generation, or the job
      not RUNNING. A cycle that was not completed stops nothing. */
  ghost predicate Sustains(c: Cycle, key: Key) {
    && (Completed(c) ==> c.record.generation == key.generation)
    && (key.KeyRunning? && About(c, key.generation, key.id) ==> SawRunning(c, key.generation, key.id))
  }

  lemma KeyStep(c: Cycle, key: Key)
    requires key in SeenNext(c)
    ensures Sustains(c, key)
    ensures key in c.mem.firstSeen ==> SeenNext(c)[key] == c.mem.firstSeen[key]
    ensures key !in c.mem.firstSeen ==> Starts(c, key) && SeenNext(c)[key] == c.now
  {
    if Completed(c) {
      JudgedKey(c.record.generation, Attempts(c), c.states, c.record.failures, c.mem.firstSeen, c.now, key);
    }
  }

  /** What judging the current generation does to one of its clocks. */
  lemma JudgedKey(current: int, attempts: map<int, Attempt>, states: map<JobId, Answer>, failures: int,
                  seen: map<Key, real>, now: real, key: Key)
    requires key in KeepGeneration(Stamped(Judge(current, attempts, states, failures, seen, now), current, now),
                                   current)
    ensures var v := Judge(current, attempts, states, failures, seen, now);
            var seen' := KeepGeneration(Stamped(v, current, now), current);
            && key.generation == current && seen'[key] == SeenAt(seen, key, now)
            && (key.KeyRunning? && current != 0 && Holds(attempts, current, key.id) ==>
                  key.id in states && states[key.id] == Is(Running))
            && (key !in seen ==>
                  match key
                  case KeyRunning(_, id) =>
                    current != 0 && Holds(attempts, current, id) && id in states && states[id] == Is(Running)
                  case KeyUnresolved(_) => current != 0 && current in attempts && attempts[current].jobId.None?
                  case KeyStopped(_) => v.stopped)
  {
  }

  ghost predicate Sustained(cycles: seq<Cycle>, i: int, n: int, key: Key) {
    0 <= i && n <= |cycles| && forall k :: i <= k < n ==> Sustains(cycles[k], key)
  }

  lemma SustainedOneMore(cycles: seq<Cycle>, i: nat, n: nat, key: Key)
    requires n < |cycles| && (i == n || Sustained(cycles, i, n, key)) && Sustains(cycles[n], key)
    ensures Sustained(cycles, i, n + 1, key)
  {
  }

  /** A clock running at the start of a cycle was running before the one before it, or started in it. */
  lemma ClockBack(cycles: seq<Cycle>, n: nat, key: Key)
    requires OneTenure(cycles) && n < |cycles| && key in cycles[n].mem.firstSeen
    ensures n > 0 && Sustains(cycles[n - 1], key)
    ensures key in cycles[n - 1].mem.firstSeen ==> cycles[n].mem.firstSeen[key] == cycles[n - 1].mem.firstSeen[key]
    ensures key !in cycles[n - 1].mem.firstSeen ==>
              Starts(cycles[n - 1], key) && cycles[n].mem.firstSeen[key] == cycles[n - 1].now
  {
    assert n > 0 ==> Follows(cycles, n);
    KeyStep(cycles[n - 1], key);
  }

  /** A running clock shows the time of a cycle of this tenure that saw what starts it, and no
      cycle since saw what stops it. */
  lemma {:induction false} ClockStart(cycles: seq<Cycle>, n: nat, key: Key) returns (i: nat)
    requires OneTenure(cycles) && n < |cycles| && key in cycles[n].mem.firstSeen
    ensures i < n && Starts(cycles[i], key) && cycles[i].now == cycles[n].mem.firstSeen[key]
    ensures Sustained(cycles, i, n, key)
    decreases n
  {
    ClockBack(cycles, n, key);
    if key in cycles[n - 1].mem.firstSeen {
      i := ClockStart(cycles, n - 1, key);
    } else {
      i := n - 1;
    }
    SustainedOneMore(cycles, i, n - 1, key);
  }

  // --- decisions ---------------------------------------------------------------------------

  function Last(cycles: seq<Cycle>): Cycle
    requires cycles != []
  {
    cycles[|cycles| - 1]
  }

  /** The cycles of one tenure, the last of which decided `plan`. */
  ghost predicate LastDecides(cycles: seq<Cycle>, wall: string, plan: Plan, mem': Mem) {
    && OneTenure(cycles)
    && var c := Last(cycles); Decides(c.record, c.listed, c.states, c.mem, c.now, wall, plan, mem')
  }

  /** Since cycle `i`, no completed cycle was of another generation. */
  ghost predicate SameGeneration(cycles: seq<Cycle>, i: nat, g: int) {
    forall k :: i <= k < |cycles| && Completed(cycles[k]) ==> cycles[k].record.generation == g
  }

  /** When a clock that is running now, or starts now, was started. */
  lemma Timed(cycles: seq<Cycle>, key: Key) returns (i: nat)
    requires OneTenure(cycles)
    requires key in Last(cycles).mem.firstSeen || Starts(Last(cycles), key)
    requires Sustains(Last(cycles), key)
    ensures i < |cycles| && Starts(cycles[i], key)
    ensures cycles[i].now == SeenAt(Last(cycles).mem.firstSeen, key, Last(cycles).now)
    ensures Sustained(cycles, i, |cycles|, key)
  {
    var n := |cycles| - 1;
    if key in cycles[n].mem.firstSeen {
      i := ClockStart(cycles, n, key);
    } else {
      i := n;
    }
    SustainedOneMore(cycles, i, n, key);
  }

  /** An id-less attempt first watched, in this tenure, a full uncertainty window ago. */
  ghost predicate WatchedOut(cycles: seq<Cycle>, g: int) {
    exists i: nat ::
      && i < |cycles| && Idless(cycles[i], g) && SameGeneration(cycles, i, g)
      && cycles[|cycles| - 1].now - cycles[i].now >= UNCERTAINTY_SECONDS
  }

  /** What an advancing decision saw. */
  lemma Advancing(c: Cycle, wall: string, plan: Plan, mem': Mem)
    requires Decides(c.record, c.listed, c.states, c.mem, c.now, wall, plan, mem') && plan.submit.Some?
    ensures Completed(c) && plan.submit.value == c.record.generation + 1
    ensures var g := c.record.generation;
            && FoundStopped(c, g)
            && c.now - SeenAt(c.mem.firstSeen, KeyStopped(g), c.now) >= Backoff(c.record.failures)
            && (g != 0 && g in Attempts(c) ==>
                  if Attempts(c)[g].jobId.Some? then Confirmed(c.states, Attempts(c)[g].jobId.value)
                  else c.now - SeenAt(c.mem.firstSeen, KeyUnresolved(g), c.now) >= UNCERTAINTY_SECONDS)
  {
  }

  /** The reasons to advance: there is no generation yet, or none recorded; the attempt has no id,
      even by name, and this tenure knows that it never submitted it; its job was answered
      terminal or not found; or it has no id and this tenure has watched it for the whole
      uncertainty window by its own clock. */
  ghost predicate Justified(cycles: seq<Cycle>) {
    && cycles != []
    && var c := Last(cycles);
       var g := c.record.generation;
       && Completed(c)
       && (|| g == 0
           || g !in c.record.attempts
           || (Unnamed(c, g) && g in c.mem.neverSubmitted)
           || (exists id :: About(c, g, id) && Confirmed(c.states, id))
           || (Idless(c, g) && WatchedOut(cycles, g)))
  }

  /** The attempt has no id, and the listing does not give it one. */
  predicate Unnamed(c: Cycle, g: int) {
    c.listed.Some? && g in c.record.attempts && c.record.attempts[g].jobId.None? && |Named(c.listed.value, g)| != 1
  }

  lemma NothingOwed(c: Cycle)
    requires Completed(c) && c.record.generation !in Attempts(c)
    ensures var g := c.record.generation;
            g !in c.record.attempts || (Unnamed(c, g) && g in c.mem.neverSubmitted)
  {
  }

  /** Unknown is never absent: the generation advances only for one of those reasons. */
  lemma AdvanceIsJustified(cycles: seq<Cycle>, wall: string, plan: Plan, mem': Mem)
    requires LastDecides(cycles, wall, plan, mem') && plan.submit.Some?
    ensures plan.submit.value == Last(cycles).record.generation + 1 && Justified(cycles)
  {
    var c := Last(cycles);
    var g := c.record.generation;
    Advancing(c, wall, plan, mem');
    if g != 0 && g !in Attempts(c) {
      NothingOwed(c);
    } else if g != 0 {
      if Attempts(c)[g].jobId.Some? {
        assert About(c, g, Attempts(c)[g].jobId.value);
      } else {
        var i := Timed(cycles, KeyUnresolved(g));
        assert SameGeneration(cycles, i, g);
      }
    }
  }

  ghost predicate WaitedOut(cycles: seq<Cycle>, i: nat) {
    && i < |cycles|
    && var c := Last(cycles);
       && FoundStopped(cycles[i], c.record.generation)
       && SameGeneration(cycles, i, c.record.generation)
       && c.now - cycles[i].now >= Backoff(c.record.failures)
  }

  /** And always after the backoff its failures call for, timed from a cycle of this tenure
      that found the same generation stopped. */
  lemma AdvanceWaitsOutBackoff(cycles: seq<Cycle>, wall: string, plan: Plan, mem': Mem) returns (i: nat)
    requires LastDecides(cycles, wall, plan, mem') && plan.submit.Some?
    ensures WaitedOut(cycles, i)
  {
    var c := Last(cycles);
    Advancing(c, wall, plan, mem');
    i := Timed(cycles, KeyStopped(c.record.generation));
  }

  /** Every completed cycle since `i`. */
  ghost predicate SinceAll(cycles: seq<Cycle>, i: nat, g: int, id: JobId, running: bool) {
    forall k :: i <= k < |cycles| && Completed(cycles[k]) ==>
      if running then SawRunning(cycles[k], g, id) else About(cycles[k], g, id)
  }

  /** What a forgiving decision saw. */
  lemma Forgiving(c: Cycle, wall: string, plan: Plan, mem': Mem) returns (id: JobId)
    requires Decides(c.record, c.listed, c.states, c.mem, c.now, wall, plan, mem') && plan.submit.None?
    requires plan.record.Some? && plan.record.value.failures != c.record.failures
    ensures plan.record.value.failures == 0 && SawRunning(c, c.record.generation, id)
    ensures c.now - SeenAt(c.mem.firstSeen, KeyRunning(c.record.generation, id), c.now) >= HEALTHY_AFTER_SECONDS
  {
    id := Attempts(c)[c.record.generation].jobId.value;
  }

  /** The job was seen RUNNING a minute ago and is now, and every completed cycle since saw it RUNNING
      if and only if every one was about that job. */
  ghost predicate HealthyMinute(cycles: seq<Cycle>, i: nat, id: JobId) {
    && i < |cycles|
    && var c := Last(cycles);
       var g := c.record.generation;
       && SawRunning(cycles[i], g, id) && SawRunning(c, g, id)
       && c.now - cycles[i].now >= HEALTHY_AFTER_SECONDS
       && SameGeneration(cycles, i, g)
       && (SinceAll(cycles, i, g, id, true) <==> SinceAll(cycles, i, g, id, false))
  }

  /** Failures are forgiven only a healthy minute after a cycle that saw the job RUNNING; and
      every completed cycle since saw it RUNNING if and only if every one was about that job. */
  lemma ForgivenAfterHealthyMinute(cycles: seq<Cycle>, wall: string, plan: Plan, mem': Mem) returns (i: nat, id: JobId)
    requires LastDecides(cycles, wall, plan, mem') && plan.submit.None?
    requires plan.record.Some? && plan.record.value.failures != Last(cycles).record.failures
    ensures plan.record.value.failures == 0 && HealthyMinute(cycles, i, id)
  {
    var c := Last(cycles);
    id := Forgiving(c, wall, plan, mem');
    i := Timed(cycles, KeyRunning(c.record.generation, id));
  }

  // --- the healthy minute can have a gap -------------------------------------------------

  const GAP_RECORD := Record(3, Some(1), 2, map[3 := Attempt(None, None)])
  const SINCE_ZERO := Mem(map[KeyRunning(3, 7) := 0.0], {})

  function Found(mem: Mem, now: real): Cycle {
    Cycle(GAP_RECORD, Some([Listed(7, 3, Running)]), map[7 := Is(Running)], mem, now)
  }

  function Omitted(mem: Mem, now: real): Cycle {
    Cycle(GAP_RECORD, Some([]), map[], mem, now)
  }

  /** An attempt found by name, omitted by the next listing, and found again a minute later:
      the middle cycle is completed and did not see the job RUNNING, yet the failures are
      forgiven, because only a cycle about the job can stop its clock. The record stays id-less
      throughout: the first cycle's write of the id it found was refused or never applied, as a
      write may be. */
  lemma HealthyMinuteHasGap(wall: string) returns (first: Cycle, gap: Cycle, last: Cycle, plan: Plan, mem': Mem)
    ensures LastDecides([first, gap, last], wall, plan, mem')
    ensures SawRunning(first, 3, 7) && Completed(gap) && !SawRunning(gap, 3, 7) && SawRunning(last, 3, 7)
    ensures plan.submit.None? && plan.record.Some? && plan.record.value.failures == 0 != last.record.failures
  {
    first, gap := Found(Mem(map[], {}), 0.0), Omitted(SINCE_ZERO, 30.0);
    ClockStarts();
    ClockGoesOn();
    last := Found(Mem(SeenNext(gap), {}), 60.0);
    ClockEnds(SeenNext(gap));
    plan, mem' := Forgives(SeenNext(gap), wall);
    InARow(first, gap, last, wall, plan, mem');
  }

  lemma ClockEnds(seen: map<Key, real>)
    ensures var c := Found(Mem(seen, {}), 60.0); SawRunning(c, 3, 7) && c.record.failures == 2
  {
    FoundAttempts(Mem(seen, {}), 60.0);
  }

  lemma InARow(first: Cycle, second: Cycle, third: Cycle, wall: string, plan: Plan, mem': Mem)
    requires first.mem.firstSeen == map[]
    requires second.mem.firstSeen == SeenNext(first) && third.mem.firstSeen == SeenNext(second)
    requires Decides(third.record, third.listed, third.states, third.mem, third.now, wall, plan, mem')
    ensures LastDecides([first, second, third], wall, plan, mem')
  {
    var cycles := [first, second, third];
    assert Follows(cycles, 1) && Follows(cycles, 2);
  }

  lemma ClockStarts()
    ensures var c := Found(Mem(map[], {}), 0.0);
            Completed(c) && SawRunning(c, 3, 7) && SeenNext(c) == SINCE_ZERO.firstSeen
  {
    FoundAttempts(Mem(map[], {}), 0.0);
  }

  lemma ClockGoesOn()
    ensures var c := Omitted(SINCE_ZERO, 30.0);
            && Completed(c) && !SawRunning(c, 3, 7)
            && KeyRunning(3, 7) in SeenNext(c) && SeenNext(c)[KeyRunning(3, 7)] == 0.0
  {
    OmittedAttempts(SINCE_ZERO, 30.0);
  }

  /** The third cycle's decision, a minute after the clock was started. */
  lemma Forgives(seen: map<Key, real>, wall: string) returns (plan: Plan, mem': Mem)
    requires KeyRunning(3, 7) in seen && seen[KeyRunning(3, 7)] == 0.0
    ensures var c := Found(Mem(seen, {}), 60.0); Decides(c.record, c.listed, c.states, c.mem, c.now, wall, plan, mem')
    ensures plan.submit.None? && plan.record.Some? && plan.record.value.failures == 0
  {
    var c := Found(Mem(seen, {}), 60.0);
    var attempts := map[3 := Attempt(Some(7), None)];
    FoundAttempts(c.mem, 60.0);
    var next := Record(3, Some(1), 0, attempts);
    plan := Plan([], Some(next), None, Report(3, Healthy, Some(7), Some(Is(Running)), [], []));
    mem' := Mem(SeenNext(c), {});
    NothingToCancel(c);
    assert WithoutId(attempts) == {};
    assert Elements(plan.report.unresolved) == {};
    assert JobKeeper.Next(c.record, attempts, VerdictOf(c), false, wall) == next;
  }

  lemma NothingToCancel(c: Cycle)
    requires c.listed == Some([Listed(7, 3, Running)]) && c.record == GAP_RECORD
    ensures Cancels([], Resolve(c.record.attempts, c.listed.value), c.listed.value, c.states, 3)
  {
    var listed := c.listed.value;
    assert listed[1..] == [];
    var m: map<JobId, int> := map[];
    forall id
      ensures ListedBelow(listed, 3, id).None? && !RecordedBelow(Resolve(c.record.attempts, listed), 3, id)
    {
    }
    assert IsSuperseded(Resolve(c.record.attempts, listed), listed, 3, m);
    assert CancelsAmong([], m, c.states, m.Keys);
  }

  lemma FoundAttempts(mem: Mem, now: real)
    requires mem.neverSubmitted == {}
    ensures Completed(Found(mem, now)) && Attempts(Found(mem, now)) == map[3 := Attempt(Some(7), None)]
  {
  }

  lemma OmittedAttempts(mem: Mem, now: real)
    requires mem.neverSubmitted == {}
    ensures Completed(Omitted(mem, now)) && Attempts(Omitted(mem, now)) == map[3 := Attempt(None, None)]
  {
  }
}
