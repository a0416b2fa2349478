/** The bulkhead by the steps its callers took: who holds a permit, when its slot goes back, and that
    it always can (src/pipeline/bulkhead.py). */
module BulkheadRuns {
  import opened Basics
  import opened Bulkhead

  /** One step of one admission. */
  datatype Taken = Taken(r: nat, step: Step)

  predicate MadeAt(b: seq<State>, trace: seq<Taken>, i: nat)
    requires i < |trace| && |b| == |trace| + 1
  {
    Next(b[i], b[i + 1], trace[i].r, trace[i].step)
  }

  /** `trace` is a run's steps, in order. */
  ghost predicate Made(b: seq<State>, trace: seq<Taken>) {
    |b| == |trace| + 1 && Init(b[0]) && forall i: nat :: i < |trace| ==> MadeAt(b, trace, i)
  }

  /** A run is what some steps made. */
  lemma {:induction false} TraceOf(b: seq<State>) returns (trace: seq<Taken>)
    requires Behavior(b)
    ensures Made(b, trace)
    decreases |b|
  {
    if |b| == 1 {
      trace := [];
    } else {
      var n := |b| - 1;
      assert Behavior(b[..n]) by {
        forall i: nat | i + 1 < n
          ensures Linked(b[..n], i)
        {
          assert Linked(b, i);
        }
      }
      var before := TraceOf(b[..n]);
      assert Linked(b, n - 1);
      var r, step :| Next(b[n - 1], b[n], r, step);
      trace := before + [Taken(r, step)];
      forall i: nat | i < |trace|
        ensures MadeAt(b, trace, i)
      {
        assert i < |before| ==> MadeAt(b[..n], before, i);
      }
    }
  }

  lemma MadeBehavior(b: seq<State>, trace: seq<Taken>)
    requires Made(b, trace)
    ensures Behavior(b)
  {
    forall i: nat | i + 1 < |b|
      ensures Linked(b, i)
    {
      assert MadeAt(b, trace, i);
    }
  }

  /** `r` has taken this step, among the first `i`. */
  ghost predicate Took(trace: seq<Taken>, i: nat, r: nat, step: Step) {
    exists k :: 0 <= k < i && k < |trace| && trace[k] == Taken(r, step)
  }

  lemma TookOneMore(trace: seq<Taken>, i: nat, r: nat, step: Step)
    requires i < |trace|
    ensures Took(trace, i + 1, r, step) <==> Took(trace, i, r, step) || trace[i] == Taken(r, step)
  {
  }

  // --- who holds a permit, by the steps taken ---------------------------------------------------------

  /** What takes up a hold: the request's is taken up when the read gives up on it, the other two
      at admission. */
  ghost predicate TakenUp(trace: seq<Taken>, i: nat, r: nat, h: Holder) {
    h.Request? ==> Took(trace, i, r, GiveUp(h.id))
  }

  /** What lets go of a hold. */
  ghost predicate LetGo(trace: seq<Taken>, i: nat, r: nat, h: Holder) {
    match h
    case Dispatcher => Took(trace, i, r, LeaveDropsSelf)
    case Worker => Took(trace, i, r, ThreadDrops) || Took(trace, i, r, LeaveDropsWorker)
    case Request(k) => Took(trace, i, r, Complete(k))
  }

  predicate Lets(step: Step, h: Holder) {
    match h
    case Dispatcher => step == LeaveDropsSelf
    case Worker => step == ThreadDrops || step == LeaveDropsWorker
    case Request(k) => step == Complete(k)
  }

  /** One step and one holder. */
  lemma HolderStep(a: Admission, step: Step, h: Holder)
    requires Enabled(a, step)
    ensures h in After(a, step).permit.holders <==>
            (h in a.permit.holders && !Lets(step, h)) || (h.Request? && step == GiveUp(h.id))
  {
  }

  /** The requests an admission knows of are those it gave up on, and only those are completed. */
  ghost predicate RequestsFollow(a: Admission, trace: seq<Taken>, i: nat, r: nat) {
    forall k :: (k in a.given <==> Took(trace, i, r, GiveUp(k))) && (Took(trace, i, r, Complete(k)) ==> k in a.given)
  }

  ghost predicate HoldersFollow(a: Admission, trace: seq<Taken>, i: nat, r: nat) {
    forall h :: h in a.permit.holders <==> TakenUp(trace, i, r, h) && !LetGo(trace, i, r, h)
  }

  ghost predicate NoneTaken(trace: seq<Taken>, i: nat, r: nat) {
    forall step :: !Took(trace, i, r, step)
  }

  ghost predicate ReleasesFollow(a: Admission, trace: seq<Taken>, i: nat, r: nat) {
    && (a.returned > 0 <==> Took(trace, i, r, Release))
    && (a.dispatcher != Awaiting <==> Took(trace, i, r, Leave))
    && (a.worker == Running <==> RanFirst(trace, i, r))
  }

  /** The thread started before the dispatcher left. */
  ghost predicate RanFirst(trace: seq<Taken>, i: nat, r: nat) {
    exists k: nat :: k < i && k < |trace| && trace[k] == Taken(r, Begin) && !Took(trace, k, r, Leave)
  }

  ghost predicate Follows(s: State, trace: seq<Taken>, i: nat, r: nat) {
    if r !in s.admissions then NoneTaken(trace, i, r)
    else
      var a := s.admissions[r];
      RequestsFollow(a, trace, i, r) && HoldersFollow(a, trace, i, r) && ReleasesFollow(a, trace, i, r)
  }

  lemma OwnRequests(a: Admission, trace: seq<Taken>, i: nat, r: nat)
    requires i < |trace| && trace[i].r == r && Enabled(a, trace[i].step) && RequestsFollow(a, trace, i, r)
    ensures RequestsFollow(After(a, trace[i].step), trace, i + 1, r)
  {
    var a' := After(a, trace[i].step);
    forall k
      ensures (k in a'.given <==> Took(trace, i + 1, r, GiveUp(k)))
      ensures Took(trace, i + 1, r, Complete(k)) ==> k in a'.given
    {
      TookOneMore(trace, i, r, GiveUp(k));
      TookOneMore(trace, i, r, Complete(k));
    }
  }

  lemma LetGoOneMore(trace: seq<Taken>, i: nat, r: nat, h: Holder)
    requires i < |trace|
    ensures LetGo(trace, i + 1, r, h) <==> LetGo(trace, i, r, h) || (trace[i].r == r && Lets(trace[i].step, h))
    ensures TakenUp(trace, i + 1, r, h) <==>
            TakenUp(trace, i, r, h) || (h.Request? && trace[i] == Taken(r, GiveUp(h.id)))
  {
    match h
    case Dispatcher => TookOneMore(trace, i, r, LeaveDropsSelf);
    case Worker =>
      TookOneMore(trace, i, r, ThreadDrops);
      TookOneMore(trace, i, r, LeaveDropsWorker);
    case Request(k) =>
      TookOneMore(trace, i, r, Complete(k));
      TookOneMore(trace, i, r, GiveUp(k));
  }

  lemma OwnHolders(a: Admission, trace: seq<Taken>, i: nat, r: nat)
    requires i < |trace| && trace[i].r == r && Enabled(a, trace[i].step)
    requires RequestsFollow(a, trace, i, r) && HoldersFollow(a, trace, i, r)
    ensures HoldersFollow(After(a, trace[i].step), trace, i + 1, r)
  {
    forall h
      ensures h in After(a, trace[i].step).permit.holders <==> TakenUp(trace, i + 1, r, h) && !LetGo(trace, i + 1, r, h)
    {
      HolderStep(a, trace[i].step, h);
      LetGoOneMore(trace, i, r, h);
    }
  }

  lemma RanFirstOneMore(trace: seq<Taken>, i: nat, r: nat)
    requires i < |trace|
    ensures RanFirst(trace, i + 1, r) <==>
            RanFirst(trace, i, r) || (trace[i] == Taken(r, Begin) && !Took(trace, i, r, Leave))
  {
  }

  lemma OwnReleases(a: Admission, trace: seq<Taken>, i: nat, r: nat)
    requires i < |trace| && trace[i].r == r && Enabled(a, trace[i].step) && AdmissionOk(a)
    requires ReleasesFollow(a, trace, i, r)
    ensures ReleasesFollow(After(a, trace[i].step), trace, i + 1, r)
  {
    TookOneMore(trace, i, r, Release);
    TookOneMore(trace, i, r, Leave);
    RanFirstOneMore(trace, i, r);
  }

  /** Another admission's step says nothing of this one. */
  lemma OthersFollow(s: State, trace: seq<Taken>, i: nat, r: nat)
    requires i < |trace| && trace[i].r != r && Follows(s, trace, i, r)
    ensures Follows(s, trace, i + 1, r)
  {
    var n := i + 1;
    forall step
      ensures Took(trace, n, r, step) <==> Took(trace, i, r, step)
    {
      TookOneMore(trace, i, r, step);
    }
    forall h
      ensures LetGo(trace, i + 1, r, h) <==> LetGo(trace, i, r, h)
      ensures TakenUp(trace, i + 1, r, h) <==> TakenUp(trace, i, r, h)
    {
      LetGoOneMore(trace, i, r, h);
    }
    RanFirstOneMore(trace, i, r);
  }

  lemma AdmittedFollows(s: State, trace: seq<Taken>, i: nat, r: nat)
    requires i < |trace| && trace[i] == Taken(r, Admit) && NoneTaken(trace, i, r)
    requires r in s.admissions && s.admissions[r] == ADMITTED
    ensures Follows(s, trace, i + 1, r)
  {
    var n := i + 1;
    forall step
      ensures Took(trace, n, r, step) <==> step == Admit
    {
      TookOneMore(trace, i, r, step);
    }
    forall h
      ensures !LetGo(trace, i + 1, r, h) && (TakenUp(trace, i + 1, r, h) <==> !h.Request?)
    {
    }
    RanFirstOneMore(trace, i, r);
    NotYetRun(trace, i, r);
  }

  lemma NotYetRun(trace: seq<Taken>, i: nat, r: nat)
    requires NoneTaken(trace, i, r)
    ensures !RanFirst(trace, i, r)
  {
    assert !Took(trace, i, r, Begin);
  }

  lemma FollowsOn(s: State, s': State, trace: seq<Taken>, i: nat, r: nat)
    requires i < |trace| && Next(s, s', trace[i].r, trace[i].step) && Inv(s) && Follows(s, trace, i, r)
    ensures Follows(s', trace, i + 1, r)
  {
    if trace[i].r != r {
      OthersFollow(s, trace, i, r);
    } else if trace[i].step.Admit? {
      AdmittedFollows(s', trace, i, r);
    } else {
      var a := s.admissions[r];
      assert AdmissionOk(a);
      OwnRequests(a, trace, i, r);
      OwnHolders(a, trace, i, r);
      OwnReleases(a, trace, i, r);
    }
  }

  lemma {:induction false} FollowsAlong(b: seq<State>, trace: seq<Taken>, i: nat, r: nat)
    requires Made(b, trace) && i < |b|
    ensures Follows(b[i], trace, i, r)
  {
    if i > 0 {
      FollowsAlong(b, trace, i - 1, r);
      MadeBehavior(b, trace);
      Reached(b, i - 1);
      assert MadeAt(b, trace, i - 1);
      FollowsOn(b[i - 1], b[i], trace, i - 1, r);
    }
  }

  /** Who holds a permit, by what was done and nothing else: the dispatcher until it drops its own
      hold, the worker until the thread or a dispatcher that left first drops its hold, and a request
      from when the read gave up on it until kazoo completed it. */
  lemma HoldersExactly(b: seq<State>, trace: seq<Taken>, i: nat, r: nat, h: Holder)
    requires Made(b, trace) && i < |b| && r in b[i].admissions
    ensures h in b[i].admissions[r].permit.holders <==>
            match h
            case Dispatcher => !Took(trace, i, r, LeaveDropsSelf)
            case Worker => !Took(trace, i, r, ThreadDrops) && !Took(trace, i, r, LeaveDropsWorker)
            case Request(k) => Took(trace, i, r, GiveUp(k)) && !Took(trace, i, r, Complete(k))
  {
    FollowsAlong(b, trace, i, r);
    assert TakenUp(trace, i, r, h) && !LetGo(trace, i, r, h) <==> h in b[i].admissions[r].permit.holders;
  }

  /** A request completed, once or again and again, holds nothing from then on. */
  lemma CompletedLetsGo(b: seq<State>, trace: seq<Taken>, i: nat, j: nat, r: nat, k: nat)
    requires Made(b, trace) && i < j < |b| && trace[i] == Taken(r, Complete(k)) && r in b[j].admissions
    ensures Request(k) !in b[j].admissions[r].permit.holders
  {
    HoldersExactly(b, trace, j, r, Request(k));
    assert Took(trace, j, r, Complete(k));
  }

  /** Everything that must be done before a slot goes back. */
  ghost predicate AllLetGo(trace: seq<Taken>, i: nat, r: nat) {
    && Took(trace, i, r, LeaveDropsSelf)
    && (Took(trace, i, r, ThreadDrops) || Took(trace, i, r, LeaveDropsWorker))
    && forall k :: Took(trace, i, r, GiveUp(k)) ==> Took(trace, i, r, Complete(k))
  }

  /** The slot is owed or returned as soon as the dispatcher, the worker and every request given up on
      have let go, and not before; and it is returned by the one release. */
  lemma SlotGoesBackExactly(b: seq<State>, trace: seq<Taken>, i: nat, r: nat)
    requires Made(b, trace) && i < |b| && r in b[i].admissions
    ensures var a := b[i].admissions[r];
            && a.owes + a.returned == (if AllLetGo(trace, i, r) then 1 else 0)
            && a.returned == (if Took(trace, i, r, Release) then 1 else 0)
  {
    MadeBehavior(b, trace);
    Reached(b, i);
    FollowsAlong(b, trace, i, r);
    var a := b[i].admissions[r];
    assert AdmissionOk(a);
    HoldersExactly(b, trace, i, r, Dispatcher);
    HoldersExactly(b, trace, i, r, Worker);
    if AllLetGo(trace, i, r) {
      forall h
        ensures h !in a.permit.holders
      {
        HoldersExactly(b, trace, i, r, h);
      }
    } else if k :| Took(trace, i, r, GiveUp(k)) && !Took(trace, i, r, Complete(k)) {
      HoldersExactly(b, trace, i, r, Request(k));
    }
  }

  /** A read runs if and only if its thread started before its dispatcher left. */
  lemma RunsExactly(b: seq<State>, trace: seq<Taken>, i: nat, r: nat)
    requires Made(b, trace) && i < |b| && r in b[i].admissions
    ensures b[i].admissions[r].worker == Running <==>
            exists k: nat :: k < i && trace[k] == Taken(r, Begin) && !Took(trace, k, r, Leave)
  {
    FollowsAlong(b, trace, i, r);
  }

  // --- a slot can always go back ----------------------------------------------------------------------

  function Pending(a: Admission): set<nat> {
    a.given - a.completed
  }

  function DispatcherToGo(d: DispatcherAt): nat {
    match d
    case Awaiting => 3
    case DropsWorker => 2
    case DropsSelf => 1
    case Left => 0
  }

  function ThreadToGo(t: ThreadAt): nat {
    match t
    case Reading => 2
    case DropsHold => 1
    case _ => 0
  }

  function ToGo(a: Admission): nat {
    2 * (DispatcherToGo(a.dispatcher) + ThreadToGo(a.thread) + |Pending(a)|) + a.owes
  }

  lemma PlaceLessens(a: Admission, step: Step)
    requires AdmissionOk(a) && Enabled(a, step)
    requires step == Leave || step == LeaveDropsWorker || step == LeaveDropsSelf
             || step == ReadReturns || step == ThreadDrops
    ensures ToGo(After(a, step)) < ToGo(a)
  {
    assert Pending(After(a, step)) == Pending(a);
  }

  lemma CompleteLessens(a: Admission, k: nat)
    requires k in Pending(a)
    ensures ToGo(After(a, Complete(k))) < ToGo(a)
  {
    assert Pending(After(a, Complete(k))) == Pending(a) - {k};
  }

  /** There is always a step towards it, whoever has yet to let go. */
  lemma StepTowards(a: Admission) returns (step: Step)
    requires AdmissionOk(a) && a.returned == 0
    ensures !step.Admit? && Enabled(a, step) && ToGo(After(a, step)) < ToGo(a)
  {
    if a.dispatcher != Left || a.thread == Reading || a.thread == DropsHold {
      step := if a.dispatcher == Awaiting then Leave
              else if a.dispatcher == DropsWorker then LeaveDropsWorker
              else if a.dispatcher == DropsSelf then LeaveDropsSelf
              else if a.thread == Reading then ReadReturns
              else ThreadDrops;
      PlaceLessens(a, step);
    } else if Pending(a) != {} {
      var k := Pick(Pending(a));
      step := Complete(k);
      CompleteLessens(a, k);
    } else {
      step := Release;
      NobodyLeft(a);
    }
  }

  lemma NobodyLeft(a: Admission)
    requires AdmissionOk(a) && a.returned == 0 && a.dispatcher == Left && a.thread != Reading && a.thread != DropsHold
    requires Pending(a) == {}
    ensures a.owes == 1
  {
    forall h
      ensures h !in a.permit.holders
    {
      if h.Request? {
        assert h.id !in Pending(a);
      }
    }
  }

  /** No slot is ever lost: from every state a run can reach, the holders of an admission can let go,
      and its slot then goes back to the gate, whatever the others do or leave undone. */
  lemma {:induction false} CanGoBack(b: seq<State>, r: nat) returns (b': seq<State>)
    requires Behavior(b) && r in b[|b| - 1].admissions
    ensures Behavior(b') && b <= b'
    ensures var s, s' := b[|b| - 1], b'[|b'| - 1];
            && r in s'.admissions && s'.admissions[r].returned == 1
            && s'.admissions == s.admissions[r := s'.admissions[r]]
            && s'.available == s.available + 1 - s.admissions[r].returned
    decreases ToGo(b[|b| - 1].admissions[r])
  {
    var s := b[|b| - 1];
    Reached(b, |b| - 1);
    assert AdmissionOk(s.admissions[r]);
    if s.admissions[r].returned > 0 {
      b' := b;
    } else {
      var step := StepTowards(s.admissions[r]);
      var a' := After(s.admissions[r], step);
      var s' := s.(available := s.available + (if step.Release? then 1 else 0), admissions := s.admissions[r := a']);
      OneMoreState(b, s', r, step);
      Returns(s.admissions[r], step);
      b' := CanGoBack(b + [s'], r);
      assert b <= b + [s'] && s'.admissions[r := b'[|b'| - 1].admissions[r]]
        == s.admissions[r := b'[|b'| - 1].admissions[r]];
    }
  }

  lemma OneMoreState(b: seq<State>, s': State, r: nat, step: Step)
    requires Behavior(b) && Next(b[|b| - 1], s', r, step)
    ensures Behavior(b + [s'])
  {
    forall i: nat | i + 1 < |b + [s']|
      ensures Linked(b + [s'], i)
    {
      if i + 1 < |b| {
        assert Linked(b, i);
      }
    }
  }
}
