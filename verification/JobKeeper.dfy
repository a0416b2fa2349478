/** The keeper's decision: src/pipeline/job_keeper.py, `decide` and what it is made of.

    `Decides` says declaratively what one cycle may decide; the method `Decide` is the
    algorithm, with its loops over attempts and listed jobs and its updates of `Memory`,
    proved against it. */
module JobKeeper {
  import opened Basics

  // A job id is an opaque token: Flink's are 32 hex digits, so never the empty string.
  type JobId = nat

  datatype JobState =
    | Initializing | Created | Running | Failing | Failed | Cancelling | Canceled
    | Finished | Restarting | Suspended | Reconciling

  /** A lookup that was answered: a state, or a confirmed absence (a 404). */
  datatype Answer = NotFound | Is(state: JobState)

  /** Confirmed absent, or in one of Flink's globally terminal states. */
  predicate Over(a: Answer) {
    a.NotFound? || a.state.Failed? || a.state.Canceled? || a.state.Finished?
  }

  datatype Attempt = Attempt(jobId: Option<JobId>, submittedAt: Option<string>)

  datatype Record = Record(generation: int, epoch: Option<int>, failures: int, attempts: map<int, Attempt>)

  const EMPTY_RECORD := Record(0, None, 0, map[])

  datatype Listed = Listed(id: JobId, generation: int, state: JobState)

  datatype Key =
    | KeyRunning(generation: int, id: JobId)
    | KeyUnresolved(generation: int)
    | KeyStopped(generation: int)

  datatype Status =
    | Unavailable | Stale | Submitting | NoJob | Unknown | Healthy | Stopped
    | Recovering | Uncertain | Unresolved | BackingOff(of: Status)

  /** What a cycle reports: the current generation, its job and that job's answer, the jobs being
      cancelled, and the generations still owed without an id. */
  datatype Report = Report(
    generation: int, status: Status, jobId: Option<JobId>, state: Option<Answer>, cancelling: seq<JobId>,
    unresolved: seq<int>)

  datatype Plan = Plan(cancel: seq<JobId>, record: Option<Record>, submit: Option<int>, report: Report)

  /** What the keeper remembers, as a value. */
  datatype Mem = Mem(firstSeen: map<Key, real>, neverSubmitted: set<int>)

  const UNCERTAINTY_SECONDS := 140.0
  const BACKOFF_INITIAL_SECONDS := 10.0
  const BACKOFF_MAX_SECONDS := 300.0
  const HEALTHY_AFTER_SECONDS := 60.0
  const MAX_DOUBLINGS: nat := 32

  // --- waiting ------------------------------------------------------------------

  /** base * 2**times */
  function Grown(base: real, times: nat): real {
    if times == 0 then base else 2.0 * Grown(base, times - 1)
  }

  function Min(a: real, b: real): real {
    if a <= b then a else b
  }

  /** `base` doubled `times` times, but at most `most` of them, saturating at `cap`. */
  function DoubledUpTo(most: nat, base: real, times: nat, cap: real): real {
    Min(cap, Grown(base, if times <= most then times else most))
  }

  function Doubled(base: real, times: nat, cap: real): real {
    DoubledUpTo(MAX_DOUBLINGS, base, times, cap)
  }

  function Backoff(failures: int): real {
    if failures <= 0 then 0.0 else Doubled(BACKOFF_INITIAL_SECONDS, failures - 1, BACKOFF_MAX_SECONDS)
  }

  lemma {:induction false} GrownMonotone(base: real, m: nat, n: nat)
    requires base > 0.0 && m <= n
    ensures 0.0 < Grown(base, m) <= Grown(base, n)
    decreases n
  {
    if 0 < n {
      GrownMonotone(base, if m < n then m else m - 1, n - 1);
    }
  }

  /** Clamping the number of doublings changes no wait at all exactly when the cap is reached
      within the clamp; otherwise some wait would be cut short. */
  lemma ClampUnobservable(most: nat, base: real, cap: real)
    requires base > 0.0
    ensures (forall times: nat :: DoubledUpTo(most, base, times, cap) == Min(cap, Grown(base, times)))
       <==> cap <= Grown(base, most)
  {
    if cap <= Grown(base, most) {
      forall times: nat
        ensures DoubledUpTo(most, base, times, cap) == Min(cap, Grown(base, times))
      {
        if most < times {
          GrownMonotone(base, most, times);
        }
      }
    } else {
      GrownMonotone(base, most, most + 1);
      assert DoubledUpTo(most, base, most + 1, cap) != Min(cap, Grown(base, most + 1));
    }
  }

  /** Consecutive resubmissions never wait less than the one before, and never past the cap. */
  lemma BackoffMonotone(m: int, n: int)
    requires m <= n
    ensures 0.0 <= Backoff(m) <= Backoff(n) <= BACKOFF_MAX_SECONDS
  {
    if 0 < n {
      GrownMonotone(BACKOFF_INITIAL_SECONDS,
                    if m <= 0 then 0 else if m - 1 <= MAX_DOUBLINGS then m - 1 else MAX_DOUBLINGS,
                    if n - 1 <= MAX_DOUBLINGS then n - 1 else MAX_DOUBLINGS);
    }
  }

  /** The wait before each resubmission, in seconds. */
  lemma BackoffTable(failures: int)
    ensures Backoff(failures) ==
            if failures <= 0 then 0.0
            else if failures == 1 then 10.0
            else if failures == 2 then 20.0
            else if failures == 3 then 40.0
            else if failures == 4 then 80.0
            else if failures == 5 then 160.0
            else 300.0
  {
    if 6 <= failures {
      GrownMonotone(BACKOFF_INITIAL_SECONDS, 5, if failures - 1 <= MAX_DOUBLINGS then failures - 1 else MAX_DOUBLINGS);
    }
  }

  // --- what a decision is -------------------------------------------------------

  predicate NewerListed(listed: seq<Listed>, current: int) {
    exists j :: j in listed && j.generation > current
  }

  function Named(listed: seq<Listed>, generation: int): (named: seq<Listed>)
    ensures forall j :: j in named <==> j in listed && j.generation == generation
  {
    if listed == [] then []
    else (if listed[0].generation == generation then [listed[0]] else []) + Named(listed[1..], generation)
  }

  /** An attempt without an id gains one when exactly one listed job carries its name. */
  function Resolved(attempt: Attempt, generation: int, listed: seq<Listed>): Attempt {
    var named := Named(listed, generation);
    if attempt.jobId.None? && |named| == 1 then attempt.(jobId := Some(named[0].id)) else attempt
  }

  function Resolve(attempts: map<int, Attempt>, listed: seq<Listed>): map<int, Attempt> {
    map g | g in attempts :: Resolved(attempts[g], g, listed)
  }

  predicate Holds(attempts: map<int, Attempt>, generation: int, id: JobId) {
    generation in attempts && attempts[generation].jobId == Some(id)
  }

  /** No later superseded attempt records the same id. */
  ghost predicate LastHolder(attempts: map<int, Attempt>, current: int, generation: int, id: JobId) {
    && generation < current
    && Holds(attempts, generation, id)
    && forall h :: h < current && Holds(attempts, h, id) ==> h <= generation
  }

  ghost predicate RecordedBelow(attempts: map<int, Attempt>, current: int, id: JobId) {
    exists g :: g < current && Holds(attempts, g, id)
  }

  /** The generation of the first listed job with this id below `current`, if there is one. */
  function ListedBelow(listed: seq<Listed>, current: int, id: JobId): (r: Option<int>)
    ensures r.Some? ==> r.value < current && exists j :: j in listed && j.id == id && j.generation == r.value
    ensures r.None? ==> forall j :: j in listed && j.id == id ==> j.generation >= current
  {
    if listed == [] then None
    else if listed[0].id == id && listed[0].generation < current then Some(listed[0].generation)
    else ListedBelow(listed[1..], current, id)
  }

  /** Every superseded job with its generation: recorded ones first, then listed ones. */
  ghost predicate IsSuperseded(attempts: map<int, Attempt>, listed: seq<Listed>, current: int, m: map<JobId, int>) {
    && (forall id :: id in m <==> RecordedBelow(attempts, current, id) || ListedBelow(listed, current, id).Some?)
    && forall id :: id in m ==>
         if RecordedBelow(attempts, current, id) then LastHolder(attempts, current, m[id], id)
         else ListedBelow(listed, current, id) == Some(m[id])
  }

  predicate Confirmed(states: map<JobId, Answer>, id: JobId) {
    id in states && Over(states[id])
  }

  predicate ToCancel(states: map<JobId, Answer>, id: JobId) {
    id in states && !Over(states[id]) && states[id] != Is(Cancelling)
  }

  /** The jobs of `among` to cancel, each once, oldest generation first. */
  ghost predicate CancelsAmong(cancel: seq<JobId>, superseded: map<JobId, int>, states: map<JobId, Answer>,
                               among: set<JobId>) {
    && among <= superseded.Keys
    && (forall id :: id in cancel <==> id in among && ToCancel(states, id))
    && (forall i :: 0 <= i < |cancel| ==> cancel[i] in among)
    && (forall i, j :: 0 <= i < j < |cancel| ==> cancel[i] != cancel[j])
    && (forall i, j :: 0 <= i < j < |cancel| ==> superseded[cancel[i]] <= superseded[cancel[j]])
  }

  ghost predicate Cancels(cancel: seq<JobId>, attempts: map<int, Attempt>, listed: seq<Listed>,
                          states: map<JobId, Answer>, current: int) {
    exists m :: IsSuperseded(attempts, listed, current, m) && CancelsAmong(cancel, m, states, m.Keys)
  }

  /** A superseded attempt is accounted for once its job is confirmed stopped or not found. */
  ghost predicate Accounted(attempts: map<int, Attempt>, states: map<JobId, Answer>, current: int, generation: int) {
    exists id :: Confirmed(states, id) && LastHolder(attempts, current, generation, id)
  }

  ghost function Unaccounted(attempts: map<int, Attempt>, states: map<JobId, Answer>, current: int): map<int, Attempt> {
    map g | g in attempts && !Accounted(attempts, states, current, g) :: attempts[g]
  }

  predicate ProvablyUnsubmitted(attempts: map<int, Attempt>, current: int, never: set<int>) {
    current in attempts && attempts[current].jobId.None? && current in never
  }

  /** The attempts a decision goes on with: resolved by name, superseded ones struck off
      once accounted for, the current one once provably never submitted. */
  ghost function Owing(record: Record, listed: seq<Listed>, states: map<JobId, Answer>,
                       never: set<int>): map<int, Attempt> {
    var current := record.generation;
    var attempts := Unaccounted(Resolve(record.attempts, listed), states, current);
    if ProvablyUnsubmitted(attempts, current, never) then attempts - {current} else attempts
  }

  function SeenAt(firstSeen: map<Key, real>, key: Key, now: real): real {
    if key in firstSeen then firstSeen[key] else now
  }

  datatype Verdict = Verdict(stopped: bool, dropCurrent: bool, status: Status, failures: int, firstSeen: map<Key, real>)

  /** What the current generation is doing. */
  function Judge(current: int, attempts: map<int, Attempt>, states: map<JobId, Answer>,
                 failures: int, firstSeen: map<Key, real>, now: real): Verdict
  {
    if current == 0 || current !in attempts then
      Verdict(true, false, NoJob, failures, firstSeen)
    else if attempts[current].jobId.Some? then
      var id := attempts[current].jobId.value;
      var key := KeyRunning(current, id);
      if id !in states then
        Verdict(false, false, Unknown, failures, firstSeen - {key})
      else if states[id] == Is(Running) then
        var since := SeenAt(firstSeen, key, now);
        Verdict(false, false, Healthy,
                if failures != 0 && now - since >= HEALTHY_AFTER_SECONDS then 0 else failures,
                firstSeen[key := since])
      else if Over(states[id]) then
        Verdict(true, true, Stopped, failures, firstSeen - {key})
      else
        Verdict(false, false, Recovering, failures, firstSeen - {key})
    else
      var key := KeyUnresolved(current);
      var since := SeenAt(firstSeen, key, now);
      if now - since < UNCERTAINTY_SECONDS then
        Verdict(false, false, Uncertain, failures, firstSeen[key := since])
      else
        Verdict(true, false, Unresolved, failures, firstSeen[key := since])
  }

  predicate Advances(v: Verdict, current: int, now: real) {
    v.stopped && now - SeenAt(v.firstSeen, KeyStopped(current), now) >= Backoff(v.failures)
  }

  /** A stopped generation's backoff is timed from the first time it was found stopped. */
  function Stamped(v: Verdict, current: int, now: real): map<Key, real> {
    if v.stopped then v.firstSeen[KeyStopped(current) := SeenAt(v.firstSeen, KeyStopped(current), now)] else v.firstSeen
  }

  function KeepGeneration(firstSeen: map<Key, real>, current: int): map<Key, real> {
    map key | key in firstSeen && key.generation == current :: firstSeen[key]
  }

  /** The record a decision arrives at, before it is compared with the one read. */
  function Next(record: Record, attempts: map<int, Attempt>, v: Verdict, advance: bool, wall: string): Record {
    var current := record.generation;
    if advance then
      Record(current + 1, record.epoch, if current >= 1 then v.failures + 1 else 0,
             (if v.dropCurrent then attempts - {current} else attempts)[current + 1 := Attempt(None, Some(wall))])
    else
      Record(current, record.epoch, v.failures, attempts)
  }

  ghost function FirstSeenAfter(record: Record, listed: Option<seq<Listed>>, states: map<JobId, Answer>,
                                mem: Mem, now: real): map<Key, real>
  {
    if listed.None? || NewerListed(listed.value, record.generation) then mem.firstSeen
    else
      var current := record.generation;
      var v := Judge(current, Owing(record, listed.value, states, mem.neverSubmitted), states,
                     record.failures, mem.firstSeen, now);
      KeepGeneration(Stamped(v, current, now), current)
  }

  /** One cycle's decision, and the memory it leaves. Only the order of cancels within one
      generation is left open. */
  ghost predicate Decides(record: Record, listed: Option<seq<Listed>>, states: map<JobId, Answer>,
                          mem: Mem, now: real, wall: string, plan: Plan, mem': Mem)
  {
    var current := record.generation;
    && mem'.firstSeen == FirstSeenAfter(record, listed, states, mem, now)
    && if listed.None? then
         mem' == mem && plan == Plan([], None, None, Report(current, Unavailable, None, None, [], []))
       else if NewerListed(listed.value, current) then
         mem' == mem && plan == Plan([], None, None, Report(current, Stale, None, None, [], []))
       else
         var attempts := Owing(record, listed.value, states, mem.neverSubmitted);
         var v := Judge(current, attempts, states, record.failures, mem.firstSeen, now);
         var advance := Advances(v, current, now);
         var next := Next(record, attempts, v, advance, wall);
         && mem'.neverSubmitted == (set g | g in mem.neverSubmitted && g >= current)
         && Cancels(plan.cancel, Resolve(record.attempts, listed.value), listed.value, states, current)
         && plan.record == (if next != record then Some(next) else None)
         && plan.submit == (if advance then Some(current + 1) else None)
         && Reports(plan.report, current, attempts, states, StatusOf(v, advance), plan.cancel, next.attempts)
  }

  function StatusOf(v: Verdict, advance: bool): Status {
    if advance then Submitting else if v.stopped then BackingOff(v.status) else v.status
  }

  /** The current generation's job is as it was judged; what is unresolved is as it will be recorded. */
  ghost predicate Reports(r: Report, current: int, attempts: map<int, Attempt>, states: map<JobId, Answer>,
                          status: Status, cancel: seq<JobId>, owed: map<int, Attempt>)
  {
    && r.generation == current && r.status == status && r.cancelling == cancel
    && r.jobId == (if current in attempts then attempts[current].jobId else None)
    && r.state == (if current != 0 && r.jobId.Some? && r.jobId.value in states then Some(states[r.jobId.value])
                   else None)
    && Ascending(r.unresolved) && Elements(r.unresolved) == WithoutId(owed)
  }

  function WithoutId(owed: map<int, Attempt>): set<int> {
    set g | g in owed && owed[g].jobId.None?
  }

  // --- the algorithm ------------------------------------------------------------

  class Memory {
    var firstSeen: map<Key, real>
    var neverSubmitted: set<int>

    constructor ()
      ensures Value() == Mem(map[], {})
    {
      firstSeen, neverSubmitted := map[], {};
    }

    ghost function Value(): Mem
      reads this
    {
      Mem(firstSeen, neverSubmitted)
    }

    /** How long ago `key` was first seen; seeing it for the first time starts its clock. */
    method Waited(key: Key, now: real) returns (waited: real)
      modifies this`firstSeen
      ensures waited == now - SeenAt(old(firstSeen), key, now)
      ensures firstSeen == old(firstSeen)[key := SeenAt(old(firstSeen), key, now)]
    {
      if key !in firstSeen {
        firstSeen := firstSeen[key := now];
      }
      waited := now - firstSeen[key];
    }

    method Keep(generation: int)
      modifies this
      ensures firstSeen == KeepGeneration(old(firstSeen), generation)
      ensures neverSubmitted == set g | g in old(neverSubmitted) && g >= generation
    {
      firstSeen := map key | key in firstSeen && key.generation == generation :: firstSeen[key];
      neverSubmitted := set g | g in neverSubmitted && g >= generation;
    }
  }

  method AttachIds(attempts: map<int, Attempt>, listed: seq<Listed>) returns (r: map<int, Attempt>)
    ensures r == Resolve(attempts, listed)
  {
    r := attempts;
    var keys := SortedKeys(attempts.Keys);
    for i := 0 to |keys|
      invariant AttachedSoFar(attempts, listed, keys, i, r)
    {
      var g := keys[i];
      AttachOneMore(attempts, listed, keys, i, r);
      if r[g].jobId.None? {
        var named := Named(listed, g);
        if |named| == 1 {
          r := r[g := r[g].(jobId := Some(named[0].id))];
        }
      }
    }
    AttachedAll(attempts, listed, keys, r);
  }

  ghost predicate AttachedSoFar(attempts: map<int, Attempt>, listed: seq<Listed>, keys: seq<int>, i: int,
                                r: map<int, Attempt>) {
    && 0 <= i <= |keys| && r.Keys == attempts.Keys
    && (forall k :: 0 <= k < |keys| ==> keys[k] in attempts)
    && (forall k :: 0 <= k < i ==> r[keys[k]] == Resolved(attempts[keys[k]], keys[k], listed))
    && (forall k :: i <= k < |keys| ==> r[keys[k]] == attempts[keys[k]])
  }

  lemma AttachOneMore(attempts: map<int, Attempt>, listed: seq<Listed>, keys: seq<int>, i: nat, r: map<int, Attempt>)
    requires i < |keys| && Ascending(keys) && AttachedSoFar(attempts, listed, keys, i, r)
    ensures r[keys[i]] == attempts[keys[i]]
    ensures AttachedSoFar(attempts, listed, keys, i + 1, r[keys[i] := Resolved(r[keys[i]], keys[i], listed)])
    ensures r[keys[i]].jobId.Some? || |Named(listed, keys[i])| != 1 ==> AttachedSoFar(attempts, listed, keys, i + 1, r)
  {
  }

  lemma AttachedAll(attempts: map<int, Attempt>, listed: seq<Listed>, keys: seq<int>, r: map<int, Attempt>)
    requires AttachedSoFar(attempts, listed, keys, |keys|, r) && forall g :: g in attempts ==> g in keys
    ensures r == Resolve(attempts, listed)
  {
    forall g | g in attempts
      ensures r[g] == Resolved(attempts[g], g, listed)
    {
      assert g in keys;
    }
  }

  /** The recorded ids below `current`, a later attempt's generation replacing an earlier one's. */
  method RecordedSuperseded(attempts: map<int, Attempt>, current: int) returns (m: map<JobId, int>)
    ensures forall id :: id in m <==> RecordedBelow(attempts, current, id)
    ensures forall id :: id in m ==> LastHolder(attempts, current, m[id], id)
  {
    m := map[];
    var keys := SortedKeys(attempts.Keys);
    for i := 0 to |keys|
      invariant RecordedSoFar(attempts, keys, i, current, m)
    {
      var g := keys[i];
      RecordOneMore(attempts, keys, i, current, m);
      if g < current && attempts[g].jobId.Some? {
        m := m[attempts[g].jobId.value := g];
      }
    }
    forall id, g | g < current && Holds(attempts, g, id)
      ensures id in m && g <= m[id]
    {
      assert g in keys;
    }
  }

  ghost predicate RecordedSoFar(attempts: map<int, Attempt>, keys: seq<int>, i: int, current: int, m: map<JobId, int>) {
    && 0 <= i <= |keys|
    && (forall id :: id in m ==> m[id] in keys[..i] && m[id] < current && Holds(attempts, m[id], id))
    && (forall k, id :: 0 <= k < i && keys[k] < current && Holds(attempts, keys[k], id) ==> id in m && keys[k] <= m[id])
  }

  lemma RecordOneMore(attempts: map<int, Attempt>, keys: seq<int>, i: nat, current: int, m: map<JobId, int>)
    requires i < |keys| && Ascending(keys) && keys[i] in attempts && RecordedSoFar(attempts, keys, i, current, m)
    ensures var g := keys[i];
            RecordedSoFar(attempts, keys, i + 1, current,
                          if g < current && attempts[g].jobId.Some? then m[attempts[g].jobId.value := g] else m)
  {
  }

  method Supersede(attempts: map<int, Attempt>, listed: seq<Listed>, current: int) returns (m: map<JobId, int>)
    ensures IsSuperseded(attempts, listed, current, m)
  {
    m := RecordedSuperseded(attempts, current);
    for i := 0 to |listed|
      invariant SupersededSoFar(attempts, listed, i, current, m)
    {
      ListOneMore(attempts, listed, i, current, m);
      var job := listed[i];
      if job.generation < current && job.id !in m {
        m := m[job.id := job.generation];
      }
    }
    assert listed[..|listed|] == listed;
  }

  ghost predicate SupersededSoFar(attempts: map<int, Attempt>, listed: seq<Listed>, i: int, current: int,
                                  m: map<JobId, int>) {
    0 <= i <= |listed| && IsSuperseded(attempts, listed[..i], current, m)
  }

  lemma ListOneMore(attempts: map<int, Attempt>, listed: seq<Listed>, i: nat, current: int, m: map<JobId, int>)
    requires i < |listed| && SupersededSoFar(attempts, listed, i, current, m)
    ensures var job := listed[i];
            SupersededSoFar(attempts, listed, i + 1, current,
                            if job.generation < current && job.id !in m then m[job.id := job.generation] else m)
  {
    assert listed[..i + 1] == listed[..i] + [listed[i]];
    forall id {
      ListedOneMore(listed[..i], listed[i], current, id);
    }
  }

  lemma {:induction false} ListedOneMore(listed: seq<Listed>, job: Listed, current: int, id: JobId)
    ensures var before := ListedBelow(listed, current, id);
            ListedBelow(listed + [job], current, id) ==
            if before.Some? then before
            else if job.id == id && job.generation < current then Some(job.generation)
            else None
  {
    if listed != [] {
      assert (listed + [job])[1..] == listed[1..] + [job];
      ListedOneMore(listed[1..], job, current, id);
    }
  }

  /** `r` is `attempts` without those accounted for by a job in `done`. */
  ghost predicate StruckBy(attempts: map<int, Attempt>, states: map<JobId, Answer>, current: int, done: set<JobId>,
                           r: map<int, Attempt>) {
    && (forall g :: g in r <==> g in attempts && !Struck(attempts, states, current, done, g))
    && forall g :: g in r ==> r[g] == attempts[g]
  }

  /** The attempt's own job, or a later duplicate's, is among `done` and confirmed over. */
  ghost predicate Struck(attempts: map<int, Attempt>, states: map<JobId, Answer>, current: int, done: set<JobId>,
                         g: int) {
    exists id :: id in done && Confirmed(states, id) && LastHolder(attempts, current, g, id)
  }

  lemma StruckOneMore(attempts: map<int, Attempt>, states: map<JobId, Answer>, current: int, done: set<JobId>,
                      id: JobId, g: int)
    ensures Struck(attempts, states, current, done + {id}, g) <==>
            || Struck(attempts, states, current, done, g)
            || (Confirmed(states, id) && LastHolder(attempts, current, g, id))
  {
    if Struck(attempts, states, current, done, g) {
      var d :| d in done && Confirmed(states, d) && LastHolder(attempts, current, g, d);
      assert d in done + {id};
    } else if Confirmed(states, id) && LastHolder(attempts, current, g, id) {
      assert id in done + {id};
    }
  }

  /** A superseded id's generation is that of its last holder, if it has one. */
  lemma HolderOf(attempts: map<int, Attempt>, listed: seq<Listed>, current: int, superseded: map<JobId, int>, id: JobId,
                 g: int)
    requires IsSuperseded(attempts, listed, current, superseded) && id in superseded
    ensures LastHolder(attempts, current, g, id) ==> superseded[id] == g
    ensures Holds(attempts, superseded[id], id) ==> LastHolder(attempts, current, superseded[id], id)
  {
    if LastHolder(attempts, current, g, id) || Holds(attempts, superseded[id], id) {
      var h := if LastHolder(attempts, current, g, id) then g else superseded[id];
      assert h < current && Holds(attempts, h, id);
      assert RecordedBelow(attempts, current, id);
    }
  }

  /** Superseded jobs in order of generation: struck off once confirmed stopped, cancelled
      while they live, left alone while unknown. */
  method Reap(attempts: map<int, Attempt>, listed: seq<Listed>, states: map<JobId, Answer>, current: int,
              superseded: map<JobId, int>)
    returns (cancel: seq<JobId>, r: map<int, Attempt>)
    requires IsSuperseded(attempts, listed, current, superseded)
    ensures CancelsAmong(cancel, superseded, states, superseded.Keys)
    ensures r == Unaccounted(attempts, states, current)
  {
    cancel, r := [], attempts;
    var rest := superseded.Keys;
    ghost var done: set<JobId> := {};
    while rest != {}
      invariant rest + done == superseded.Keys && rest !! done
      invariant forall x, y :: x in done && y in rest ==> superseded[x] <= superseded[y]
      invariant CancelsAmong(cancel, superseded, states, done)
      invariant StruckBy(attempts, states, current, done, r)
      decreases rest
    {
      var least := LeastValue(superseded, rest);
      var id :| id in rest && superseded[id] == least;
      var g := superseded[id];
      CancelStep(cancel, superseded, states, done, id);
      StrikeStep(attempts, listed, states, current, superseded, done, id, r);
      if Confirmed(states, id) {
        if g in r && r[g].jobId == Some(id) {
          r := r - {g};
        }
      } else if ToCancel(states, id) {
        cancel := cancel + [id];
      }
      rest, done := rest - {id}, done + {id};
    }
    StruckOff(attempts, listed, states, current, superseded, r);
  }

  lemma CancelStep(cancel: seq<JobId>, superseded: map<JobId, int>, states: map<JobId, Answer>, done: set<JobId>,
                   id: JobId)
    requires CancelsAmong(cancel, superseded, states, done)
    requires id in superseded && id !in done
    requires forall x :: x in done ==> superseded[x] <= superseded[id]
    ensures CancelsAmong(if ToCancel(states, id) then cancel + [id] else cancel, superseded, states, done + {id})
  {
  }

  lemma StrikeStep(attempts: map<int, Attempt>, listed: seq<Listed>, states: map<JobId, Answer>, current: int,
                   superseded: map<JobId, int>, done: set<JobId>, id: JobId, r: map<int, Attempt>)
    requires IsSuperseded(attempts, listed, current, superseded)
    requires StruckBy(attempts, states, current, done, r)
    requires id in superseded
    ensures StruckBy(attempts, states, current, done + {id},
                     if Confirmed(states, id) && Holds(r, superseded[id], id) then r - {superseded[id]} else r)
  {
    var s := superseded[id];
    var r' := if Confirmed(states, id) && Holds(r, s, id) then r - {s} else r;
    forall g
      ensures g in r' <==> g in attempts && !Struck(attempts, states, current, done + {id}, g)
    {
      StruckOneMore(attempts, states, current, done, id, g);
      HolderOf(attempts, listed, current, superseded, id, g);
    }
  }

  lemma StruckOff(attempts: map<int, Attempt>, listed: seq<Listed>, states: map<JobId, Answer>, current: int,
                  superseded: map<JobId, int>, r: map<int, Attempt>)
    requires IsSuperseded(attempts, listed, current, superseded)
    requires StruckBy(attempts, states, current, superseded.Keys, r)
    ensures r == Unaccounted(attempts, states, current)
  {
    forall g | g in attempts
      ensures g in r <==> !Accounted(attempts, states, current, g)
    {
      if Accounted(attempts, states, current, g) {
        var id :| Confirmed(states, id) && LastHolder(attempts, current, g, id);
        assert RecordedBelow(attempts, current, id);
        assert Struck(attempts, states, current, superseded.Keys, g);
      }
    }
    var kept := Unaccounted(attempts, states, current);
    assert forall g :: g in r <==> g in kept;
  }

  method LeastValue(m: map<JobId, int>, ids: set<JobId>) returns (least: int)
    requires ids != {} && ids <= m.Keys
    ensures exists id :: id in ids && m[id] == least
    ensures forall id :: id in ids ==> least <= m[id]
  {
    var any :| any in ids;
    least := m[any];
    var rest := ids - {any};
    while rest != {}
      invariant rest <= ids
      invariant exists id :: id in ids && m[id] == least
      invariant forall id :: id in ids - rest ==> least <= m[id]
      decreases rest
    {
      var id :| id in rest;
      if m[id] < least {
        least := m[id];
      }
      rest := rest - {id};
    }
  }

  /** What the current generation is doing, timed by the keeper's own memory. */
  method Assess(current: int, attempts: map<int, Attempt>, states: map<JobId, Answer>, failures: int, memory: Memory,
                now: real)
    returns (v: Verdict)
    modifies memory`firstSeen
    ensures v == Judge(current, attempts, states, failures, old(memory.firstSeen), now)
    ensures memory.firstSeen == v.firstSeen
  {
    var counted, stopped, dropCurrent, status := failures, false, false, NoJob;
    if current == 0 || current !in attempts {
      stopped := true;
    } else if attempts[current].jobId.Some? {
      var id := attempts[current].jobId.value;
      if id !in states || states[id] != Is(Running) {
        memory.firstSeen := memory.firstSeen - {KeyRunning(current, id)};
      }
      if id !in states {
        status := Unknown;
      } else if states[id] == Is(Running) {
        status := Healthy;
        var ran := memory.Waited(KeyRunning(current, id), now);
        if counted != 0 && ran >= HEALTHY_AFTER_SECONDS {
          counted := 0;
        }
      } else if Over(states[id]) {
        stopped, dropCurrent, status := true, true, Stopped;
      } else {
        status := Recovering;
      }
    } else {
      var waited := memory.Waited(KeyUnresolved(current), now);
      if waited < UNCERTAINTY_SECONDS {
        status := Uncertain;
      } else {
        stopped, status := true, Unresolved;
      }
    }
    v := Verdict(stopped, dropCurrent, status, counted, memory.firstSeen);
  }

  /** Supersede a stopped generation once it has waited out its backoff. */
  method Conclude(record: Record, attempts: map<int, Attempt>, v: Verdict, memory: Memory, now: real, wall: string)
    returns (next: Record, submit: Option<int>, status: Status)
    requires memory.firstSeen == v.firstSeen
    modifies memory`firstSeen
    ensures var advance := Advances(v, record.generation, now);
            && next == Next(record, attempts, v, advance, wall)
            && submit == (if advance then Some(record.generation + 1) else None)
            && status == StatusOf(v, advance)
    ensures memory.firstSeen == Stamped(v, record.generation, now)
  {
    var current := record.generation;
    submit, status := None, v.status;
    var owed, failures := attempts, v.failures;
    if v.stopped {
      var waited := memory.Waited(KeyStopped(current), now);
      if waited >= Backoff(failures) {
        if v.dropCurrent {
          owed := owed - {current};
        }
        owed := owed[current + 1 := Attempt(None, Some(wall))];
        failures := if current >= 1 then failures + 1 else 0;
        submit, status := Some(current + 1), Submitting;
      } else {
        status := BackingOff(status);
      }
    }
    next := Record(if submit.Some? then current + 1 else current, record.epoch, failures, owed);
  }

  /** One cycle's decision. */
  method Decide(record: Record, listed: Option<seq<Listed>>, states: map<JobId, Answer>, memory: Memory, now: real,
                wall: string)
    returns (plan: Plan)
    modifies memory
    ensures Decides(record, listed, states, old(memory.Value()), now, wall, plan, memory.Value())
  {
    var current := record.generation;
    if listed.None? {
      return Plan([], None, None, Report(current, Unavailable, None, None, [], []));
    }
    if NewerListed(listed.value, current) {
      return Plan([], None, None, Report(current, Stale, None, None, [], []));
    }
    var resolved := AttachIds(record.attempts, listed.value);
    var superseded := Supersede(resolved, listed.value, current);
    var cancel, attempts := Reap(resolved, listed.value, states, current, superseded);
    assert Cancels(cancel, resolved, listed.value, states, current);
    if current in attempts && attempts[current].jobId.None? && current in memory.neverSubmitted {
      attempts := attempts - {current};
    }
    assert attempts == Owing(record, listed.value, states, memory.neverSubmitted);
    var v := Assess(current, attempts, states, record.failures, memory, now);
    var next, submit, status := Conclude(record, attempts, v, memory, now, wall);
    memory.Keep(current);
    var report := Describe(current, attempts, states, status, cancel, next.attempts);
    plan := Plan(cancel, if next != record then Some(next) else None, submit, report);
  }

  method Describe(current: int, attempts: map<int, Attempt>, states: map<JobId, Answer>, status: Status,
                  cancel: seq<JobId>,
                  owed: map<int, Attempt>)
    returns (r: Report)
    ensures Reports(r, current, attempts, states, status, cancel, owed)
  {
    var jobId, state := None, None;
    if current in attempts {
      jobId := attempts[current].jobId;
    }
    if current != 0 && jobId.Some? && jobId.value in states {
      state := Some(states[jobId.value]);
    }
    var unresolved := SortedKeys(WithoutId(owed));
    r := Report(current, status, jobId, state, cancel, unresolved);
  }

  /** The jobs to ask about directly: every recorded id, and every listed job at or below the
      record's generation. */
  ghost predicate LookupNeeded(record: Record, listed: seq<Listed>, id: JobId) {
    || (exists g :: Holds(record.attempts, g, id))
    || exists j :: j in listed && j.id == id && j.generation <= record.generation
  }
}
