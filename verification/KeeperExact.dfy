/** One decision, exactly and in Flink's own states: which jobs it cancels, which attempts it leaves in
    the record, when it submits, and which answers it rests on (src/pipeline/job_keeper.py, `decide`
    and `lookups_needed`). */
module KeeperExact {
  import opened Basics
  import opened JobKeeper
  import opened KeeperSafety

  // --- a decision, in Flink's own states --------------------------------------------------------

  /** Alive, and not yet told to stop. */
  predicate StillGoing(a: Answer) {
    match a
    case NotFound => false
    case Is(Initializing) => true
    case Is(Created) => true
    case Is(Running) => true
    case Is(Failing) => true
    case Is(Restarting) => true
    case Is(Suspended) => true
    case Is(Reconciling) => true
    case Is(Cancelling) => false
    case Is(Failed) => false
    case Is(Canceled) => false
    case Is(Finished) => false
  }

  /** Over for good. */
  predicate Gone(a: Answer) {
    a == NotFound || a == Is(Failed) || a == Is(Canceled) || a == Is(Finished)
  }

  /** The decision got as far as the current generation, and this is what it decided. */
  ghost predicate Completes(record: Record, listed: seq<Listed>, states: map<JobId, Answer>, mem: Mem,
                            now: real, wall: string, plan: Plan, mem': Mem)
  {
    && Decides(record, Some(listed), states, mem, now, wall, plan, mem')
    && forall j :: j in listed ==> j.generation <= record.generation
  }

  lemma CompletedCancels(record: Record, listed: seq<Listed>, states: map<JobId, Answer>, mem: Mem,
                         now: real, wall: string, plan: Plan, mem': Mem)
    requires Completes(record, listed, states, mem, now, wall, plan, mem')
    ensures Cancels(plan.cancel, Resolve(record.attempts, listed), listed, states, record.generation)
  {
  }

  lemma CompletedRecord(record: Record, listed: seq<Listed>, states: map<JobId, Answer>, mem: Mem,
                        now: real, wall: string, plan: Plan, mem': Mem)
    requires Completes(record, listed, states, mem, now, wall, plan, mem')
    ensures var owing := Owing(record, listed, states, mem.neverSubmitted);
            var v := Judge(record.generation, owing, states, record.failures, mem.firstSeen, now);
            var advance := Advances(v, record.generation, now);
            && plan.submit == (if advance then Some(record.generation + 1) else None)
            && Decided(record, plan) == JobKeeper.Next(record, owing, v, advance, wall)
  {
  }

  /** The record as decided: a plan that writes nothing leaves it as it was. */
  function Decided(record: Record, plan: Plan): Record {
    if plan.record.Some? then plan.record.value else record
  }

  /** Recorded, or listed, under an earlier generation. */
  ghost predicate Earlier(record: Record, listed: seq<Listed>, id: JobId) {
    || (exists g :: g < record.generation && Holds(record.attempts, g, id))
    || (exists j :: j in listed && j.id == id && j.generation < record.generation)
  }

  /** Looking ids up by name brings in no job that is not listed. */
  lemma EarlierRecorded(record: Record, listed: seq<Listed>, id: JobId)
    ensures RecordedBelow(Resolve(record.attempts, listed), record.generation, id) ==> Earlier(record, listed, id)
    ensures forall g :: g < record.generation && Holds(record.attempts, g, id) ==>
              RecordedBelow(Resolve(record.attempts, listed), record.generation, id)
  {
    var current, resolved := record.generation, Resolve(record.attempts, listed);
    forall g | g < current && Holds(record.attempts, g, id)
      ensures RecordedBelow(resolved, current, id)
    {
      assert Holds(resolved, g, id);
    }
    if RecordedBelow(resolved, current, id) {
      var g :| g < current && Holds(resolved, g, id);
      ResolvedSource(record, listed, g, id);
      if !Holds(record.attempts, g, id) {
        var j :| j in listed && j.id == id && j.generation == g;
        assert Earlier(record, listed, id);
      }
    }
  }

  lemma EarlierSuperseded(record: Record, listed: seq<Listed>, m: map<JobId, int>, id: JobId)
    requires IsSuperseded(Resolve(record.attempts, listed), listed, record.generation, m)
    ensures id in m <==> Earlier(record, listed, id)
  {
    EarlierRecorded(record, listed, id);
    var below := ListedBelow(listed, record.generation, id);
    if below.Some? {
      var j :| j in listed && j.id == id && j.generation == below.value;
      assert Earlier(record, listed, id);
    }
  }

  lemma CancelsExactlyAmong(record: Record, listed: seq<Listed>, states: map<JobId, Answer>, cancel: seq<JobId>,
                            id: JobId)
    requires Cancels(cancel, Resolve(record.attempts, listed), listed, states, record.generation)
    ensures id in cancel <==> Earlier(record, listed, id) && id in states && StillGoing(states[id])
  {
    var current, resolved := record.generation, Resolve(record.attempts, listed);
    var m :| IsSuperseded(resolved, listed, current, m) && CancelsAmong(cancel, m, states, m.Keys);
    EarlierSuperseded(record, listed, m, id);
  }

  /** A completed decision cancels a job if and only if it is of an earlier generation and was
      answered as going on and not being cancelled already. */
  lemma CancelsExactly(record: Record, listed: seq<Listed>, states: map<JobId, Answer>, mem: Mem,
                       now: real, wall: string, plan: Plan, mem': Mem, id: JobId)
    requires Completes(record, listed, states, mem, now, wall, plan, mem')
    ensures id in plan.cancel <==> Earlier(record, listed, id) && id in states && StillGoing(states[id])
  {
    CompletedCancels(record, listed, states, mem, now, wall, plan, mem');
    CancelsExactlyAmong(record, listed, states, plan.cancel, id);
  }

  /** The attempt's id, given it by name if it has none and one listed job alone carries the name. */
  function IdOf(record: Record, listed: seq<Listed>, g: int): Option<JobId>
    requires g in record.attempts
  {
    if record.attempts[g].jobId.Some? then record.attempts[g].jobId
    else if |Named(listed, g)| == 1 then Some(Named(listed, g)[0].id) else None
  }

  /** Whether an attempt is no longer owed: its job is gone, or was never submitted. An id held by
      several earlier generations accounts for the last of them. */
  ghost predicate Discharged(record: Record, listed: seq<Listed>, states: map<JobId, Answer>, never: set<int>,
                             advance: bool, g: int)
    requires g in record.attempts
  {
    var id := IdOf(record, listed, g);
    if g < record.generation then
      && id.Some? && id.value in states && Gone(states[id.value])
      && forall h :: g < h < record.generation && h in record.attempts ==> IdOf(record, listed, h) != id
    else
      g == record.generation && if id.None? then g in never else g != 0 && advance
  }

  lemma ResolvedHolds(record: Record, listed: seq<Listed>, g: int, id: JobId)
    ensures Holds(Resolve(record.attempts, listed), g, id) <==>
            g in record.attempts && IdOf(record, listed, g) == Some(id)
  {
  }

  /** A superseded attempt is accounted for exactly when it is discharged. */
  lemma AccountedExactly(record: Record, listed: seq<Listed>, states: map<JobId, Answer>, never: set<int>,
                         advance: bool, g: int)
    requires g in record.attempts && g < record.generation
    ensures Accounted(Resolve(record.attempts, listed), states, record.generation, g) <==>
            Discharged(record, listed, states, never, advance, g)
  {
    var current, resolved, id := record.generation, Resolve(record.attempts, listed), IdOf(record, listed, g);
    if id.Some? {
      forall h {
        ResolvedHolds(record, listed, h, id.value);
      }
    }
    if Discharged(record, listed, states, never, advance, g) {
      assert LastHolder(resolved, current, g, id.value);
    }
    if Accounted(resolved, states, current, g) {
      var over :| Confirmed(states, over) && LastHolder(resolved, current, g, over);
      ResolvedHolds(record, listed, g, over);
      forall h | g < h < current && h in record.attempts
        ensures IdOf(record, listed, h) != id
      {
        ResolvedHolds(record, listed, h, over);
      }
    }
  }

  /** What a decision goes on with is what is not discharged, before it advances. */
  lemma OwingExactly(record: Record, listed: seq<Listed>, states: map<JobId, Answer>, never: set<int>, g: int)
    ensures var owing := Owing(record, listed, states, never);
            && (g in owing <==> g in record.attempts && !Discharged(record, listed, states, never, false, g))
            && (g in owing ==> owing[g] == record.attempts[g].(jobId := IdOf(record, listed, g)))
  {
    if g in record.attempts {
      if g < record.generation {
        AccountedExactly(record, listed, states, never, false, g);
      } else {
        assert !Accounted(Resolve(record.attempts, listed), states, record.generation, g);
      }
    }
  }

  /** The attempts a completed decision leaves in the record are exactly those not discharged, each
      with its id, and the new one if it advances. */
  lemma KeepsExactly(record: Record, listed: seq<Listed>, states: map<JobId, Answer>, mem: Mem,
                     now: real, wall: string, plan: Plan, mem': Mem, g: int)
    requires Completes(record, listed, states, mem, now, wall, plan, mem')
    ensures var next := Decided(record, plan);
            var advance := plan.submit.Some?;
            if advance && g == record.generation + 1 then
              g in next.attempts && next.attempts[g] == Attempt(None, Some(wall))
            else
              && (g in next.attempts <==>
                    g in record.attempts && !Discharged(record, listed, states, mem.neverSubmitted, advance, g))
              && (g in next.attempts ==>
                    next.attempts[g] == record.attempts[g].(jobId := IdOf(record, listed, g)))
  {
    CompletedRecord(record, listed, states, mem, now, wall, plan, mem');
    OwingExactly(record, listed, states, mem.neverSubmitted, g);
    var owing := Owing(record, listed, states, mem.neverSubmitted);
    NextKeeps(record, owing, states, mem.firstSeen, now, plan.submit.Some?, wall, g);
  }

  /** Advancing drops a current job that has an id, since it has stopped, and nothing else. */
  lemma NextKeeps(record: Record, owing: map<int, Attempt>, states: map<JobId, Answer>, firstSeen: map<Key, real>,
                  now: real, advance: bool, wall: string, g: int)
    requires var v := Judge(record.generation, owing, states, record.failures, firstSeen, now);
             advance <==> Advances(v, record.generation, now)
    ensures var v := Judge(record.generation, owing, states, record.failures, firstSeen, now);
            var next := JobKeeper.Next(record, owing, v, advance, wall).attempts;
            if advance && g == record.generation + 1 then
              g in next && next[g] == Attempt(None, Some(wall))
            else
              && (g in next <==>
                    g in owing && !(advance && g == record.generation && g != 0 && owing[g].jobId.Some?))
              && (g in next ==> next[g] == owing[g])
  {
  }

  /** The current generation, by this cycle's answers and clock, has no job to wait for: there never
      was one, it is gone, it provably never was submitted, or it stayed unresolved too long. */
  predicate NothingToWaitFor(record: Record, listed: seq<Listed>, states: map<JobId, Answer>, mem: Mem, now: real) {
    var current := record.generation;
    || current == 0 || current !in record.attempts
    || match IdOf(record, listed, current)
       case Some(id) => id in states && Gone(states[id])
       case None =>
         || current in mem.neverSubmitted
         || (KeyUnresolved(current) in mem.firstSeen && now - mem.firstSeen[KeyUnresolved(current)] >= 140.0)
  }

  /** A completed decision submits the next generation if and only if there is nothing to wait for
      and the backoff since that was first seen has passed. */
  lemma SubmitsExactly(record: Record, listed: seq<Listed>, states: map<JobId, Answer>, mem: Mem,
                       now: real, wall: string, plan: Plan, mem': Mem)
    requires Completes(record, listed, states, mem, now, wall, plan, mem')
    ensures plan.submit == Some(record.generation + 1) || plan.submit == None
    ensures plan.submit.Some? <==>
            && NothingToWaitFor(record, listed, states, mem, now)
            && var key := KeyStopped(record.generation);
               (if key in mem.firstSeen then now - mem.firstSeen[key] else 0.0) >= Backoff(record.failures)
  {
    CompletedRecord(record, listed, states, mem, now, wall, plan, mem');
    StopsExactly(record, listed, states, mem, now);
  }

  lemma StopsExactly(record: Record, listed: seq<Listed>, states: map<JobId, Answer>, mem: Mem, now: real)
    ensures var v := Judge(record.generation, Owing(record, listed, states, mem.neverSubmitted), states,
                           record.failures, mem.firstSeen, now);
            && (v.stopped <==> NothingToWaitFor(record, listed, states, mem, now))
            && (v.stopped ==>
                  v.failures == record.failures &&
                  var key := KeyStopped(record.generation);
                  SeenAt(v.firstSeen, key, now) == SeenAt(mem.firstSeen, key, now))
  {
    OwingExactly(record, listed, states, mem.neverSubmitted, record.generation);
  }

  // --- the lookups a decision rests on ------------------------------------------------------------

  ghost predicate SameAnswer(states: map<JobId, Answer>, other: map<JobId, Answer>, id: JobId) {
    (id in states <==> id in other) && (id in states && id in other ==> states[id] == other[id])
  }

  /** Every id asked about got the same answer, or none. */
  ghost predicate SameAnswers(record: Record, listed: seq<Listed>, states: map<JobId, Answer>,
                              other: map<JobId, Answer>) {
    forall id :: LookupNeeded(record, listed, id) ==> SameAnswer(states, other, id)
  }

  lemma ResolvedIsNeeded(record: Record, listed: seq<Listed>, g: int, id: JobId)
    requires !NewerListed(listed, record.generation) && Holds(Resolve(record.attempts, listed), g, id)
    ensures LookupNeeded(record, listed, id)
  {
    ResolvedSource(record, listed, g, id);
    if !Holds(record.attempts, g, id) {
      var j :| j in listed && j.id == id && j.generation == g;
      assert j.generation <= record.generation;
    }
  }

  lemma SameOwing(record: Record, listed: seq<Listed>, states: map<JobId, Answer>, other: map<JobId, Answer>,
                  never: set<int>)
    requires !NewerListed(listed, record.generation) && SameAnswers(record, listed, states, other)
    ensures Owing(record, listed, states, never) == Owing(record, listed, other, never)
  {
    var current, resolved := record.generation, Resolve(record.attempts, listed);
    forall g | g in resolved
      ensures Accounted(resolved, states, current, g) <==> Accounted(resolved, other, current, g)
    {
      if Accounted(resolved, states, current, g) {
        var id :| Confirmed(states, id) && LastHolder(resolved, current, g, id);
        ResolvedIsNeeded(record, listed, g, id);
        assert Confirmed(other, id);
      }
      if Accounted(resolved, other, current, g) {
        var id :| Confirmed(other, id) && LastHolder(resolved, current, g, id);
        ResolvedIsNeeded(record, listed, g, id);
        assert Confirmed(states, id);
      }
    }
    assert Unaccounted(resolved, states, current) == Unaccounted(resolved, other, current);
  }

  lemma SameCancels(record: Record, listed: seq<Listed>, states: map<JobId, Answer>, other: map<JobId, Answer>,
                    cancel: seq<JobId>)
    requires !NewerListed(listed, record.generation) && SameAnswers(record, listed, states, other)
    requires Cancels(cancel, Resolve(record.attempts, listed), listed, states, record.generation)
    ensures Cancels(cancel, Resolve(record.attempts, listed), listed, other, record.generation)
  {
    var current, resolved := record.generation, Resolve(record.attempts, listed);
    var m :| IsSuperseded(resolved, listed, current, m) && CancelsAmong(cancel, m, states, m.Keys);
    forall id | id in m
      ensures SameAnswer(states, other, id)
    {
      EarlierSuperseded(record, listed, m, id);
      assert LookupNeeded(record, listed, id);
    }
    assert CancelsAmong(cancel, m, other, m.Keys);
  }

  lemma SameVerdict(record: Record, listed: seq<Listed>, states: map<JobId, Answer>, other: map<JobId, Answer>,
                    mem: Mem, now: real)
    requires !NewerListed(listed, record.generation) && SameAnswers(record, listed, states, other)
    ensures var owing := Owing(record, listed, states, mem.neverSubmitted);
            && Judge(record.generation, owing, states, record.failures, mem.firstSeen, now)
               == Judge(record.generation, owing, other, record.failures, mem.firstSeen, now)
            && forall g, id :: Holds(owing, g, id) ==> SameAnswer(states, other, id)
  {
    var owing := Owing(record, listed, states, mem.neverSubmitted);
    forall g, id | Holds(owing, g, id)
      ensures SameAnswer(states, other, id)
    {
      assert Holds(Resolve(record.attempts, listed), g, id);
      ResolvedIsNeeded(record, listed, g, id);
    }
    var g := record.generation;
    assert g in owing && owing[g].jobId.Some? ==> Holds(owing, g, owing[g].jobId.value);
  }

  /** The lookups suffice: a decision depends on no answer but those of the jobs asked about. */
  lemma LookupsSuffice(record: Record, listed: seq<Listed>, states: map<JobId, Answer>, other: map<JobId, Answer>,
                       mem: Mem, now: real, wall: string, plan: Plan, mem': Mem)
    requires SameAnswers(record, listed, states, other)
    requires Decides(record, Some(listed), states, mem, now, wall, plan, mem')
    ensures Decides(record, Some(listed), other, mem, now, wall, plan, mem')
  {
    if !NewerListed(listed, record.generation) {
      var g, owing := record.generation, Owing(record, listed, states, mem.neverSubmitted);
      SameOwing(record, listed, states, other, mem.neverSubmitted);
      SameVerdict(record, listed, states, other, mem, now);
      SameCancels(record, listed, states, other, plan.cancel);
      assert g in owing && owing[g].jobId.Some? ==> Holds(owing, g, owing[g].jobId.value);
    }
  }
}
