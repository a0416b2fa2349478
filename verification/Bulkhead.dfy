/** One store's bulkhead: src/pipeline/bulkhead.py. A permit is held by the dispatcher, by the
    worker thread, and by each ZooKeeper request the reader gave up on, and its slot goes back
    to the gate exactly once, after all of them have let go.

    The lock-protected sections are the methods of `Permit` and `WorkerHold`; the transition
    system interleaves them freely, with the gate's release as a step of its own. */
module Bulkhead {
  import opened Basics

  datatype Holder = Dispatcher | Worker | Request(id: nat)

  datatype PermitState = PermitState(holders: set<Holder>, released: bool)

  datatype WorkerState = Pending | Running | Abandoned

  // --- the critical sections -----------------------------------------------------------

  function Held(p: PermitState, h: Holder): PermitState {
    p.(holders := p.holders + {h})
  }

  function Dropped(p: PermitState, h: Holder): PermitState {
    PermitState(p.holders - {h}, p.released || p.holders - {h} == {})
  }

  /** Whether this drop is the one that must release the slot. */
  predicate Frees(p: PermitState, h: Holder) {
    !p.released && p.holders - {h} == {}
  }

  class Permit {
    var holders: set<Holder>
    var released: bool

    constructor ()
      ensures Value() == PermitState({Dispatcher}, false)
    {
      holders, released := {Dispatcher}, false;
    }

    ghost function Value(): PermitState
      reads this
    {
      PermitState(holders, released)
    }

    /** Add a holder; false is the refusal to hold a permit already released. */
    method Hold(h: Holder) returns (ok: bool)
      modifies this
      ensures ok == !old(released)
      ensures Value() == if ok then Held(old(Value()), h) else old(Value())
    {
      ok := !released;
      if ok {
        holders := holders + {h};
      }
    }

    /** Let go: idempotent per holder, and true only for the last to leave. */
    method Drop(h: Holder) returns (release: bool)
      modifies this
      ensures release == Frees(old(Value()), h)
      ensures Value() == Dropped(old(Value()), h)
    {
      holders := holders - {h};
      release := holders == {} && !released;
      if release {
        released := true;
      }
      assert holders == {} ==> released;
    }
  }

  class WorkerHold {
    var state: WorkerState

    constructor ()
      ensures state == Pending
    {
      state := Pending;
    }

    /** The thread begins: run the read, unless the dispatcher has already left. */
    method Begin() returns (run: bool)
      modifies this
      ensures run == (old(state) != Abandoned)
      ensures state == if run then Running else old(state)
    {
      run := state != Abandoned;
      if run {
        state := Running;
      }
    }

    /** The dispatcher leaves: if the thread never started, it never will. */
    method DispatcherLeaving() returns (letGo: bool)
      modifies this
      ensures letGo == (old(state) == Pending)
      ensures state == if letGo then Abandoned else old(state)
    {
      letGo := state == Pending;
      if letGo {
        state := Abandoned;
      }
    }
  }

  // --- the interleaving --------------------------------------------------------------------

  datatype DispatcherAt = Awaiting | DropsWorker | DropsSelf | Left

  datatype ThreadAt = NotStarted | Reading | DropsHold | Done | Skipped

  /** One admission. `given` and `completed` are the ZooKeeper requests given up on and those
      kazoo has completed; `owes` and `returned` count releases of the gate due and made. */
  datatype Admission = Admission(
    permit: PermitState, worker: WorkerState, dispatcher: DispatcherAt, thread: ThreadAt,
    given: set<nat>, completed: set<nat>, owes: nat, returned: nat)

  datatype State = State(limit: nat, available: nat, admissions: map<nat, Admission>)

  predicate Init(s: State) {
    s.available == s.limit && s.admissions == map[]
  }

  /** `_drop`: the section under the lock, leaving the gate's release to be made after it. */
  function Drop(a: Admission, h: Holder): Admission {
    a.(permit := Dropped(a.permit, h), owes := a.owes + (if Frees(a.permit, h) then 1 else 0))
  }

  /** The gate is taken, the permit made, and the worker's hold added before the thread is asked for. */
  const ADMITTED := Admission(PermitState({Dispatcher, Worker}, false), Pending, Awaiting, NotStarted, {}, {}, 0, 0)

  datatype Step =
    | Admit
    | Begin             // the thread starts
    | GiveUp(k: nat)    // the read times out on a ZooKeeper request and hands it over
    | Complete(k: nat)  // kazoo completes a request given up on; its callback may run again and again
    | ReadReturns
    | ThreadDrops
    | Leave             // the awaiting task is done, or natively cancelled, whatever the thread does
    | LeaveDropsWorker
    | LeaveDropsSelf
    | Release           // the gate's own release, outside the permit's lock

  predicate Enabled(a: Admission, step: Step) {
    match step
    case Admit => false
    case Begin => a.thread == NotStarted
    case GiveUp(k) => a.thread == Reading && k !in a.given
    case Complete(k) => k in a.given
    case ReadReturns => a.thread == Reading
    case ThreadDrops => a.thread == DropsHold
    case Leave => a.dispatcher == Awaiting
    case LeaveDropsWorker => a.dispatcher == DropsWorker
    case LeaveDropsSelf => a.dispatcher == DropsSelf
    case Release => a.owes > 0
  }

  function After(a: Admission, step: Step): Admission
    requires Enabled(a, step)
  {
    match step
    case Begin => if a.worker == Abandoned then a.(thread := Skipped) else a.(worker := Running, thread := Reading)
    case GiveUp(k) => a.(permit := Held(a.permit, Request(k)), given := a.given + {k})
    case Complete(k) => Drop(a, Request(k)).(completed := a.completed + {k})
    case ReadReturns => a.(thread := DropsHold)
    case ThreadDrops => Drop(a, Worker).(thread := Done)
    case Leave => if a.worker == Pending then a.(worker := Abandoned, dispatcher := DropsWorker)
                  else a.(dispatcher := DropsSelf)
    case LeaveDropsWorker => Drop(a, Worker).(dispatcher := DropsSelf)
    case LeaveDropsSelf => Drop(a, Dispatcher).(dispatcher := Left)
    case Release => a.(owes := a.owes - 1, returned := a.returned + 1)
  }

  predicate Next(s: State, s': State, r: nat, step: Step) {
    if step.Admit? then
      && r !in s.admissions && s.available > 0
      && s' == s.(available := s.available - 1, admissions := s.admissions[r := ADMITTED])
    else
      && r in s.admissions && Enabled(s.admissions[r], step)
      && s' == s.(available := s.available + (if step.Release? then 1 else 0),
                  admissions := s.admissions[r := After(s.admissions[r], step)])
  }

  // --- the invariant -------------------------------------------------------------------------

  /** Who holds the permit, as their places in the protocol say. */
  predicate WorkerHolds(a: Admission) {
    match a.worker
    case Pending => true
    case Running => a.thread == Reading || a.thread == DropsHold
    case Abandoned => a.dispatcher == DropsWorker
  }

  predicate PlacesOk(a: Admission) {
    match a.worker
    case Pending => a.thread == NotStarted && a.dispatcher == Awaiting
    case Running => (a.thread == Reading || a.thread == DropsHold || a.thread == Done) && a.dispatcher != DropsWorker
    case Abandoned => (a.thread == NotStarted || a.thread == Skipped) && a.dispatcher != Awaiting
  }

  ghost predicate AdmissionOk(a: Admission) {
    && PlacesOk(a)
    && (Dispatcher in a.permit.holders <==> a.dispatcher != Left)
    && (Worker in a.permit.holders <==> WorkerHolds(a))
    && (forall k :: Request(k) in a.permit.holders <==> k in a.given && k !in a.completed)
    && a.completed <= a.given
    && (a.permit.released <==> a.permit.holders == {})
    && a.owes + a.returned == (if a.permit.released then 1 else 0)
  }

  /** The admissions whose slot is out. */
  ghost function Out(s: State): set<nat> {
    set r | r in s.admissions && s.admissions[r].returned == 0
  }

  ghost predicate AllOk(admissions: map<nat, Admission>) {
    forall r :: r in admissions ==> AdmissionOk(admissions[r])
  }

  ghost predicate Inv(s: State) {
    AllOk(s.admissions) && s.available + |Out(s)| == s.limit
  }

  lemma AdmissionKept(a: Admission, step: Step)
    requires AdmissionOk(a) && Enabled(a, step)
    ensures AdmissionOk(After(a, step))
  {
  }

  lemma InvKept(s: State, s': State, r: nat, step: Step)
    requires Inv(s) && Next(s, s', r, step)
    ensures Inv(s')
  {
    AdmissionsKept(s.admissions, r, s'.admissions[r]) by {
      if !step.Admit? {
        AdmissionKept(s.admissions[r], step);
      }
    }
    OutAfter(s, s', r, step);
  }

  lemma AdmissionsKept(admissions: map<nat, Admission>, r: nat, a: Admission)
    requires AllOk(admissions) && AdmissionOk(a)
    ensures AllOk(admissions[r := a])
  {
  }

  /** Only a release brings a slot back, and only an admission takes one. */
  lemma OutAfter(s: State, s': State, r: nat, step: Step)
    requires Next(s, s', r, step) && (r in s.admissions ==> AdmissionOk(s.admissions[r]))
    ensures |Out(s')| - |Out(s)| == s.available - s'.available
  {
    SlotOf(s, r);
    SlotOf(s', r);
    OthersOut(s, s', r);
    if !step.Admit? {
      Returns(s.admissions[r], step);
    }
  }

  lemma OthersOut(s: State, s': State, r: nat)
    requires r in s'.admissions && s'.admissions == s.admissions[r := s'.admissions[r]]
    ensures Out(s) - {r} == Out(s') - {r}
  {
  }

  lemma SlotOf(s: State, r: nat)
    ensures |Out(s)| == |Out(s) - {r}| + if r in Out(s) then 1 else 0
  {
    if r in Out(s) {
      assert Out(s) == (Out(s) - {r}) + {r};
    } else {
      assert Out(s) == Out(s) - {r};
    }
  }

  lemma Returns(a: Admission, step: Step)
    requires AdmissionOk(a) && Enabled(a, step)
    ensures After(a, step).returned == a.returned + if step.Release? then 1 else 0
    ensures step.Release? ==> a.returned == 0
  {
  }

  // --- every run ---------------------------------------------------------------------------------

  ghost predicate Moves(s: State, s': State) {
    exists r, step :: Next(s, s', r, step)
  }

  ghost predicate Linked(b: seq<State>, i: nat)
    requires i + 1 < |b|
  {
    Moves(b[i], b[i + 1])
  }

  ghost predicate Behavior(b: seq<State>) {
    b != [] && Init(b[0]) && forall i: nat :: i + 1 < |b| ==> Linked(b, i)
  }

  lemma {:induction false} Reached(b: seq<State>, i: nat)
    requires Behavior(b) && i < |b|
    ensures Inv(b[i]) && b[i].limit == b[0].limit
  {
    if i == 0 {
      assert Out(b[0]) == {};
    } else {
      Reached(b, i - 1);
      assert Linked(b, i - 1);
      var r, step :| Next(b[i - 1], b[i], r, step);
      InvKept(b[i - 1], b[i], r, step);
    }
  }

  /** A store call is in progress: its read is running, or a request it gave up on has not completed. */
  ghost predicate Busy(a: Admission) {
    a.thread == Reading || exists k :: k in a.given && k !in a.completed
  }

  ghost function BusyOnes(s: State): set<nat> {
    set r | r in s.admissions && Busy(s.admissions[r])
  }

  /** The cap: however dispatchers leave and threads and requests linger, at most `limit`
      calls are ever in progress. */
  lemma AtMostLimitBusy(b: seq<State>, i: nat)
    requires Behavior(b) && i < |b|
    ensures |BusyOnes(b[i])| <= b[0].limit
  {
    Reached(b, i);
    var s := b[i];
    forall r | r in BusyOnes(s)
      ensures r in Out(s)
    {
      var a := s.admissions[r];
      assert AdmissionOk(a);
      if a.thread == Reading {
        assert Worker in a.permit.holders;
      } else {
        var k :| k in a.given && k !in a.completed;
        assert Request(k) in a.permit.holders;
      }
    }
    Subset(BusyOnes(s), Out(s));
  }

  lemma {:induction false} Subset(a: set<nat>, b: set<nat>)
    requires a <= b
    ensures |a| <= |b|
    decreases |a|
  {
    if a != {} {
      var x := Pick(a);
      Subset(a - {x}, b - {x});
    }
  }

  /** Each admission's slot goes back at most once, and only when nobody holds it; and once
      everybody has let go it has gone back, or is on its way. */
  lemma ReturnedExactlyOnce(b: seq<State>, i: nat, r: nat)
    requires Behavior(b) && i < |b| && r in b[i].admissions
    ensures var a := b[i].admissions[r];
            && a.returned <= 1
            && (a.returned == 1 ==> a.dispatcher == Left && !Busy(a) && a.thread != DropsHold)
            && (a.owes + a.returned == 1 <==> a.dispatcher == Left && !WorkerHolds(a) && a.given <= a.completed)
  {
    Reached(b, i);
    var a := b[i].admissions[r];
    assert AdmissionOk(a);
    if a.dispatcher == Left && !WorkerHolds(a) && a.given <= a.completed {
      forall h
        ensures h !in a.permit.holders
      {
        match h
        case Dispatcher =>
        case Worker =>
        case Request(k) =>
      }
    } else if !(a.given <= a.completed) {
      var k :| k in a.given && k !in a.completed;
      assert Request(k) in a.permit.holders;
    }
  }

  /** The bounded gate is never released past its limit, and no hold is ever attempted on a
      permit already released. */
  lemma NoOverRelease(b: seq<State>, i: nat, r: nat, step: Step)
    requires Behavior(b) && i + 1 < |b| && Next(b[i], b[i + 1], r, step)
    ensures step.Release? ==> b[i].available < b[i].limit
    ensures step.GiveUp? ==> !b[i].admissions[r].permit.released
  {
    Reached(b, i);
    var s := b[i];
    if step.Release? {
      assert AdmissionOk(s.admissions[r]);
      assert r in Out(s);
    } else if step.GiveUp? {
      assert AdmissionOk(s.admissions[r]);
      assert Worker in s.admissions[r].permit.holders;
    }
  }

  /** A read whose dispatcher left before it started never runs. */
  lemma LeftFirstNeverRuns(b: seq<State>, i: nat, j: nat, r: nat)
    requires Behavior(b) && i <= j < |b| && r in b[i].admissions
    requires b[i].admissions[r].dispatcher != Awaiting && b[i].admissions[r].thread == NotStarted
    ensures r in b[j].admissions && b[j].admissions[r].thread != Reading
  {
    AdmissionReached(b, i, r);
    AbandonedAlong(b, i, j, r);
    AdmissionReached(b, j, r);
  }

  lemma AdmissionReached(b: seq<State>, i: nat, r: nat)
    requires Behavior(b) && i < |b| && r in b[i].admissions
    ensures PlacesOk(b[i].admissions[r])
  {
    Reached(b, i);
    assert AdmissionOk(b[i].admissions[r]);
  }

  lemma {:induction false} AbandonedAlong(b: seq<State>, i: nat, j: nat, r: nat)
    requires Behavior(b) && i <= j < |b| && r in b[i].admissions && b[i].admissions[r].worker == Abandoned
    ensures r in b[j].admissions && b[j].admissions[r].worker == Abandoned
    decreases j
  {
    if i < j {
      AbandonedAlong(b, i, j - 1, r);
      assert Linked(b, j - 1);
      StaysAbandoned(b[j - 1], b[j], r);
    }
  }

  lemma StaysAbandoned(s: State, s': State, r: nat)
    requires Moves(s, s') && r in s.admissions && s.admissions[r].worker == Abandoned
    ensures r in s'.admissions && s'.admissions[r].worker == Abandoned
  {
    var q, step :| Next(s, s', q, step);
  }
}
