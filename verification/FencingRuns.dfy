/** What the epoch guarantees over every run: src/pipeline/coordination.py and
    src/pipeline/coordinator.py; and `claim_epoch`'s loop itself. */
module FencingRuns {
  import opened Basics
  import opened Leadership
  import opened Fencing

  /** A run and the steps that made it. */
  datatype Run = Run(states: seq<State>, steps: seq<Step>)

  ghost predicate Linked(run: Run, i: nat)
    requires i < |run.steps| && |run.states| == |run.steps| + 1
  {
    Enabled(run.states[i], run.steps[i]) && run.states[i + 1] == After(run.states[i], run.steps[i])
  }

  ghost predicate Behavior(run: Run) {
    && |run.states| == |run.steps| + 1 && Init(run.states[0])
    && forall i: nat :: i < |run.steps| ==> Linked(run, i)
  }

  lemma {:induction false} Reached(run: Run, i: nat)
    requires Behavior(run) && i < |run.states|
    ensures Inv(run.states[i])
  {
    if i > 0 {
      Reached(run, i - 1);
      assert Linked(run, i - 1);
      InvKept(run.states[i - 1], run.steps[i - 1]);
    }
  }

  // --- tokens -----------------------------------------------------------------------------------

  lemma StepClaims(s: State, step: Step)
    requires Enabled(s, step)
    ensures Claims(After(s, step).journal) ==
            Claims(s.journal) + if step.Serve? && step.r.Advance? && Passes(s, step.r) then [step.r.ticket] else []
    ensures s.journal <= After(s, step).journal
  {
  }

  lemma {:induction false} ClaimsGrow(run: Run, i: nat, j: nat)
    requires Behavior(run) && i <= j < |run.states|
    ensures Claims(run.states[i].journal) <= Claims(run.states[j].journal)
    decreases j
  {
    if i < j {
      ClaimsGrow(run, i, j - 1);
      assert Linked(run, j - 1);
      StepClaims(run.states[j - 1], run.steps[j - 1]);
    }
  }

  /** The epoch's value is always its version, and counts the claims made. */
  lemma EpochValueIsVersion(run: Run, i: nat)
    requires Behavior(run) && i < |run.states|
    ensures run.states[i].epoch.value == run.states[i].epoch.version == |Claims(run.states[i].journal)|
  {
    Reached(run, i);
  }

  /** Whoever holds a token, whenever they held it: no two tenures, of any processes, share one. */
  lemma TokensNeverShared(run: Run, i: nat, j: nat, p: nat, p': nat)
    requires Behavior(run) && i <= j < |run.states|
    requires p in run.states[i].processes && HasToken(run.states[i].processes[p].place)
    requires p' in run.states[j].processes && HasToken(run.states[j].processes[p'].place)
    requires run.states[i].processes[p].token == run.states[j].processes[p'].token
    ensures p == p' && run.states[i].processes[p].tenure == run.states[j].processes[p'].tenure
  {
    Reached(run, i);
    Reached(run, j);
    ClaimsGrow(run, i, j);
    var q, q' := run.states[i].processes[p], run.states[j].processes[p'];
    assert Holds(q.token, Mine(p, q), Claims(run.states[i].journal));
    assert Holds(q'.token, Mine(p', q'), Claims(run.states[j].journal));
    assert Mine(p, q) == Mine(p', q');
  }

  /** A claim that `m` makes between two moments. */
  ghost predicate ClaimsAt(run: Run, m: nat, t: Ticket)
    requires |run.states| == |run.steps| + 1
  {
    && m < |run.steps| && run.steps[m].Serve? && run.steps[m].r.Advance?
    && run.steps[m].r.ticket == t && Passes(run.states[m], run.steps[m].r)
  }

  /** A claim that is there now and was not then was made in between. */
  lemma {:induction false} MadeBetween(run: Run, i: nat, j: nat, k: nat) returns (m: nat)
    requires Behavior(run) && i <= j < |run.states|
    requires |Claims(run.states[i].journal)| <= k < |Claims(run.states[j].journal)|
    ensures i <= m < j && ClaimsAt(run, m, Claims(run.states[j].journal)[k])
    decreases j
  {
    assert i < j;
    assert Linked(run, j - 1);
    StepClaims(run.states[j - 1], run.steps[j - 1]);
    if k < |Claims(run.states[j - 1].journal)| {
      m := MadeBetween(run, i, j - 1, k);
    } else {
      m := j - 1;
    }
  }

  /** A claim refused for its version lost to another tenure's, made since this one's read. */
  lemma FailedClaimWitnessed(run: Run, i: nat, j: nat, p: nat)
    requires Behavior(run) && i < j < |run.steps| && p in run.states[i].processes
    requires run.steps[i] == Read(p) && run.steps[j].Serve?
    requires var r := run.steps[j].r;
             && r.Advance? && r.version == run.states[i].epoch.version
             && r.ticket == Mine(p, run.states[i].processes[p]) && !Passes(run.states[j], r)
    ensures exists m, t :: i < m < j && t != run.steps[j].r.ticket && ClaimsAt(run, m, t)
  {
    var r, v := run.steps[j].r, run.states[i].epoch.version;
    Reached(run, i);
    Reached(run, j);
    assert Linked(run, j) && Linked(run, i);
    assert RequestOk(r, Claims(run.states[j].journal), run.states[j].processes);
    var m := MadeBetween(run, i, j, v);
    var t := Claims(run.states[j].journal)[v];
    assert t in Claims(run.states[j].journal);
    assert ClaimsAt(run, m, t) && m != i;
  }

  // --- snapshots -----------------------------------------------------------------------------------

  lemma {:induction false} ClaimsOfPrefix(journal: seq<Entry>, k: nat)
    requires k <= |journal|
    ensures Claims(journal[..k]) <= Claims(journal)
  {
    if k == |journal| {
      assert journal[..k] == journal;
    } else {
      var n := |journal| - 1;
      assert journal[..n][..k] == journal[..k];
      ClaimsOfPrefix(journal[..n], k);
    }
  }

  /** The epochs of accepted snapshots never decrease, and each was the newest of its time: once
      a later tenure has claimed, nothing an earlier one sent is ever accepted. */
  lemma SnapshotsNeverGoBack(run: Run, i: nat, j: nat, k: nat)
    requires Behavior(run) && i < |run.states| && j <= k < |run.states[i].journal|
    requires run.states[i].journal[k].Accept?
    ensures var journal := run.states[i].journal;
            && journal[k].token == |Claims(journal[..k])|
            && Holds(journal[k].token, journal[k].ticket, Claims(journal))
            && (journal[j].Accept? ==> journal[j].token <= journal[k].token)
  {
    Reached(run, i);
    var journal := run.states[i].journal;
    ClaimsOfPrefix(journal, k);
    ClaimsOfPrefix(journal[..k], j);
    assert journal[..k][..j] == journal[..j];
  }

  /** The step serves a request whose fence lets it through. */
  predicate Accepts(s: State, step: Step) {
    step.Serve? && Passes(s, step.r)
  }

  /** A request that is refused, like every step that serves none, changes neither value nor version
      of anything; one that is accepted changes one node, and moves its version by one. */
  lemma RefusedChangesNothing(s: State, step: Step)
    requires Enabled(s, step)
    ensures var s' := After(s, step);
            if !Accepts(s, step) then (s'.epoch, s'.snapshot, s'.journal) == (s.epoch, s.snapshot, s.journal)
            else if step.r.Advance? then s'.snapshot == s.snapshot && s'.epoch.version == s.epoch.version + 1
            else s'.epoch == s.epoch && s'.snapshot == Znode(Some(s.epoch.version), s.snapshot.version + 1)
  {
  }

  /** The requests accepted from `i` up to `j`. */
  ghost function AcceptedBetween(run: Run, i: nat, j: nat): nat
    requires i <= j <= |run.steps| < |run.states|
    decreases j
  {
    if i == j then 0 else AcceptedBetween(run, i, j - 1) + if Accepts(run.states[j - 1], run.steps[j - 1]) then 1 else 0
  }

  /** Over any stretch of any run the two versions together grow by exactly the requests accepted:
      what a deposed leader sends, however often, is never seen in either. */
  lemma {:induction false} VersionsCountAcceptances(run: Run, i: nat, j: nat)
    requires Behavior(run) && i <= j < |run.states|
    ensures run.states[j].epoch.version + run.states[j].snapshot.version
         == run.states[i].epoch.version + run.states[i].snapshot.version + AcceptedBetween(run, i, j)
    decreases j
  {
    if i < j {
      VersionsCountAcceptances(run, i, j - 1);
      assert Linked(run, j - 1);
      RefusedChangesNothing(run.states[j - 1], run.steps[j - 1]);
    }
  }

  /** `snapshot_matches_leader`: each part read may be missing, and so may the epoch in it. */
  predicate SnapshotMatchesLeader(leader: Option<Option<nat>>, snapshot: Option<Option<nat>>) {
    if leader.None? || snapshot.None? then false
    else if leader.value.None? || snapshot.value.None? then false
    else leader.value.value == snapshot.value.value
  }

  ghost predicate LatestAccepted(journal: seq<Entry>, k: int) {
    && 0 <= k < |journal| && journal[k].Accept?
    && forall j :: k < j < |journal| ==> !journal[j].Accept?
  }

  lemma {:induction false} LastAcceptedExact(journal: seq<Entry>)
    ensures match LastAccepted(journal)
            case None => forall k :: 0 <= k < |journal| ==> !journal[k].Accept?
            case Some(e) => exists k :: LatestAccepted(journal, k) && journal[k].token == e
  {
    if journal != [] {
      var n := |journal| - 1;
      LastAcceptedExact(journal[..n]);
      if journal[n].Accept? {
        assert LatestAccepted(journal, n);
      } else if LastAccepted(journal[..n]).Some? {
        var k :| LatestAccepted(journal[..n], k) && journal[..n][k].token == LastAccepted(journal[..n]).value;
        assert LatestAccepted(journal, k);
      }
    }
  }

  lemma MatchesLastAccepted(journal: seq<Entry>, leader: Option<Option<nat>>)
    ensures SnapshotMatchesLeader(leader, Some(LastAccepted(journal))) <==>
            exists k :: LatestAccepted(journal, k) && leader == Some(Some(journal[k].token))
  {
  }

  /** Against the tree of any run, a marker matches exactly when the latest snapshot accepted is
      its own epoch's: in particular never before the first one. */
  lemma MatchMeansLatest(run: Run, i: nat, leader: Option<Option<nat>>)
    requires Behavior(run) && i < |run.states|
    ensures var s := run.states[i];
            SnapshotMatchesLeader(leader, Some(s.snapshot.value)) <==>
            exists k :: LatestAccepted(s.journal, k) && leader == Some(Some(s.journal[k].token))
  {
    Reached(run, i);
    MatchesLastAccepted(run.states[i].journal, leader);
  }

  // --- tenures -------------------------------------------------------------------------------------

  /** Leader-only work is allowed exactly while the session is up and this tenure has not lost it.
      Outside a tenure no keeper work is active, inside one only its own; and it is, unless a later
      epoch has been claimed and the keeper has found its write refused. */
  lemma MayWorkExactly(run: Run, i: nat, p: nat)
    requires Behavior(run) && i < |run.states| && p in run.states[i].processes
    ensures var q := run.states[i].processes[p];
            && (MayWork(q.flags) <==> SessionUp(q.history) && !LostThisTenure(q.history))
            && q.keeping <= (if Leading(q.place) then {q.token} else {})
            && (Leading(q.place) && q.token == run.states[i].epoch.version ==> q.keeping == {q.token})
  {
    Reached(run, i);
    assert SelfOk(run.states[i].processes[p]);
    assert StandsOk(p, run.states[i].processes[p], Claims(run.states[i].journal), run.states[i].requests);
    FlagsExact(run.states[i].processes[p].history);
  }

  /** The snapshot writes `p` sends from `i` up to `j`. */
  ghost function SentBetween(run: Run, i: nat, j: nat, p: nat): nat
    requires i <= j <= |run.steps|
    decreases j
  {
    if i == j then 0 else SentBetween(run, i, j - 1, p) + if run.steps[j - 1] == SendSnapshot(p) then 1 else 0
  }

  ghost predicate SameTenure(run: Run, i: nat, j: nat, p: nat) {
    && i <= j < |run.states| && p in run.states[i].processes && p in run.states[j].processes
    && run.states[i].processes[p].tenure == run.states[j].processes[p].tenure
  }

  lemma TenureOneStep(s: State, step: Step, p: nat)
    requires Enabled(s, step) && p in s.processes
    ensures p in After(s, step).processes
    ensures TenureGoesOn(s.processes[p], After(s, step).processes[p], step == SendSnapshot(p))
  {
    if !step.Serve? && step.p == p {
      OwnTenure(s.processes[p], s.epoch, step);
    }
  }

  /** A tenure that lost its session stays so, and counts what it sends. */
  predicate TenureGoesOn(q: Process, q': Process, sends: bool) {
    && q.tenure <= q'.tenure
    && (q.tenure == q'.tenure && q.flags.tenureVoid ==>
          q'.flags.tenureVoid && q'.late == q.late + if sends then 1 else 0)
  }

  lemma OwnTenure(q: Process, epoch: Znode<nat>, step: Step)
    ensures TenureGoesOn(q, Own(q, epoch, step), step.SendSnapshot?)
  {
  }

  lemma {:induction false} LateCounts(run: Run, i: nat, j: nat, p: nat)
    requires Behavior(run) && i <= j < |run.states| && p in run.states[i].processes
    requires run.states[i].processes[p].flags.tenureVoid
    ensures p in run.states[j].processes
    ensures var q, q' := run.states[i].processes[p], run.states[j].processes[p];
            && q.tenure <= q'.tenure
            && (q.tenure == q'.tenure ==> q'.flags.tenureVoid && q'.late == q.late + SentBetween(run, i, j, p))
    decreases j
  {
    if i < j {
      LateCounts(run, i, j - 1, p);
      Reached(run, j - 1);
      assert Linked(run, j - 1);
      TenureOneStep(run.states[j - 1], run.steps[j - 1], p);
    }
  }

  /** A tenure that loses its session sends at most one more snapshot, ever. */
  lemma AtMostOneWriteAfterLost(run: Run, i: nat, j: nat, p: nat)
    requires Behavior(run) && i < j && SameTenure(run, i, j, p) && run.steps[i] == Session(p, Lost)
    ensures SentBetween(run, i, j, p) <= 1
  {
    Reached(run, i);
    Reached(run, j);
    assert Linked(run, i);
    assert SelfOk(run.states[j].processes[p]);
    LateCounts(run, i + 1, j, p);
    SentFrom(run, i, j, p);
  }

  lemma {:induction false} SentFrom(run: Run, i: nat, j: nat, p: nat)
    requires i < j <= |run.steps| && run.steps[i] != SendSnapshot(p)
    ensures SentBetween(run, i, j, p) == SentBetween(run, i + 1, j, p)
    decreases j
  {
    if i + 1 < j {
      SentFrom(run, i, j - 1, p);
    }
  }

  /** How far a tenure that lost its session is from its end, in steps of its own. */
  function ToGo(place: Place): nat {
    match place
    case Claimed => 1
    case Acknowledging => 2
    case Acknowledged => 1
    case Cleared => 5
    case AwaitingWrite => 4
    case Top => 3
    case Doubtful => 2
    case Ending => 1
    case _ => 0
  }

  /** The step is `p`'s own: neither its session's, its keeper's nor another's, nor an unheard service. */
  predicate OwnStep(step: Step, p: nat) {
    match step
    case Session(_, _) => false
    case StandDown(_) => false
    case Serve(r, heard) => heard && r.ticket.process == p
    case _ => step.p == p
  }

  lemma LostOwn(q: Process, epoch: Znode<nat>, step: Step)
    requires SelfOk(q) && q.flags.tenureVoid && HasToken(q.place) && Fits(q.place, step)
    ensures var q' := Own(q, epoch, step);
            && q'.flags.tenureVoid
            && ToGo(q'.place) + (if step.Session? || step.StandDown? then 0 else 1) <= ToGo(q.place)
            && (HasToken(q'.place) || (q'.place == Out && q'.keeping == {}))
  {
  }

  lemma LostTold(q: Process, r: Request, passed: bool)
    requires if r.Advance? then q.place.AwaitingClaim? else q.place.AwaitingWrite?
    ensures q.place.AwaitingWrite? ==> var q' := Told(q, r, passed);
              HasToken(q'.place) && ToGo(q'.place) < ToGo(q.place) && q'.flags == q.flags
  {
  }

  /** Leading under a lost session, with no more than `n` steps of its own to go; or over, with
      the keeper's work retired. */
  ghost predicate Winding(q: Process, n: int) {
    q.flags.tenureVoid && if HasToken(q.place) then ToGo(q.place) <= n else q.place == Out && q.keeping == {}
  }

  lemma WindsDown(s: State, step: Step, p: nat, n: int)
    requires Enabled(s, step) && p in s.processes && SelfOk(s.processes[p]) && Winding(s.processes[p], n)
    ensures p in After(s, step).processes
    ensures var q, q' := s.processes[p], After(s, step).processes[p];
            q'.tenure == q.tenure ==> Winding(q', n - if OwnStep(step, p) then 1 else 0)
  {
    if step.Serve? {
      if step.heard && step.r.ticket.process == p {
        LostTold(s.processes[p], step.r, Passes(s, step.r));
      }
    } else if step.p == p {
      OwnWinds(s.processes[p], s.epoch, step, n);
    }
  }

  lemma OwnWinds(q: Process, epoch: Znode<nat>, step: Step, n: int)
    requires SelfOk(q) && Winding(q, n) && Fits(q.place, step)
    ensures var q' := Own(q, epoch, step);
            q'.tenure == q.tenure ==> Winding(q', n - if step.Session? || step.StandDown? then 0 else 1)
  {
    if HasToken(q.place) {
      LostOwn(q, epoch, step);
    }
  }

  /** The steps `p` takes of its own from `i` up to `j`. */
  ghost function OwnBetween(run: Run, i: nat, j: nat, p: nat): nat
    requires i <= j <= |run.steps|
    decreases j
  {
    if i == j then 0 else OwnBetween(run, i, j - 1, p) + if OwnStep(run.steps[j - 1], p) then 1 else 0
  }

  lemma {:induction false} WindsDownAlong(run: Run, i: nat, j: nat, p: nat, n: int)
    requires Behavior(run) && i <= j < |run.states| && p in run.states[i].processes
    requires Winding(run.states[i].processes[p], n)
    ensures p in run.states[j].processes
    ensures var q, q' := run.states[i].processes[p], run.states[j].processes[p];
            && q.tenure <= q'.tenure
            && (q.tenure == q'.tenure ==> Winding(q', n - OwnBetween(run, i, j, p)))
    decreases j
  {
    if i < j {
      WindsDownAlong(run, i, j - 1, p, n);
      Reached(run, j - 1);
      assert Linked(run, j - 1);
      TenureOneStep(run.states[j - 1], run.steps[j - 1], p);
      var q, q' := run.states[i].processes[p], run.states[j - 1].processes[p];
      if q.tenure == q'.tenure {
        assert SelfOk(run.states[j - 1].processes[p]);
        WindsDown(run.states[j - 1], run.steps[j - 1], p, n - OwnBetween(run, i, j - 1, p));
      }
    }
  }

  lemma LostWinds(run: Run, i: nat, p: nat)
    requires Behavior(run) && i < |run.steps| && run.steps[i] == Session(p, Lost)
    requires p in run.states[i].processes && HasToken(run.states[i].processes[p].place)
    ensures p in run.states[i + 1].processes && Winding(run.states[i + 1].processes[p], 5)
    ensures run.states[i + 1].processes[p].tenure == run.states[i].processes[p].tenure
  {
    assert Linked(run, i);
  }

  /** A tenure with a token that loses its session is over within five steps of its own, whatever
      the session and everybody else do, and its keeper's work is then retired. */
  lemma LostTenureEnds(run: Run, i: nat, j: nat, p: nat)
    requires Behavior(run) && i < j && SameTenure(run, i, j, p) && run.steps[i] == Session(p, Lost)
    requires HasToken(run.states[i].processes[p].place)
    ensures var q := run.states[j].processes[p];
            && (HasToken(q.place) ==> OwnBetween(run, i + 1, j, p) < 5)
            && (OwnBetween(run, i + 1, j, p) >= 5 ==> q.place == Out && q.keeping == {})
  {
    LostWinds(run, i, p);
    WindsDownAlong(run, i + 1, j, p, 5);
  }

  // --- how a tenure ends ------------------------------------------------------------------------------

  /** In lead's loop. */
  predicate InLoop(place: Place) {
    place == Top || place == Doubtful || place == Cleared || place == AwaitingWrite
  }

  /** A heard reply: `p`'s own snapshot met a newer epoch. */
  predicate Refused(s: State, step: Step, p: nat) {
    && p in s.processes && step.Serve? && step.heard
    && step.r.Snapshot? && step.r.ticket == Ticket(p, s.processes[p].tenure) && step.r.token != s.epoch.version
  }

  /** What ends a tenure that is under way: the process stops, the session was lost, the snapshot
      could not be built, the write failed for more than a lost connection, or it was refused. */
  predicate Ends(s: State, step: Step, p: nat) {
    || step == Check(p, true)
    || (step == CheckVoid(p) && p in s.processes && s.processes[p].flags.tenureVoid)
    || step == FailBuild(p)
    || step == FailWrite(p, true)
    || Refused(s, step, p)
  }

  lemma LoopStep(s: State, step: Step, p: nat)
    requires Enabled(s, step) && p in s.processes && InLoop(s.processes[p].place)
    ensures p in After(s, step).processes
    ensures var q, q' := s.processes[p], After(s, step).processes[p];
            q'.tenure == q.tenure && if Ends(s, step, p) then q'.place == Ending else InLoop(q'.place)
  {
    if !step.Serve? && step.p == p {
      LoopOwn(s.processes[p], s.epoch, step);
    } else if step.Serve? && step.heard && step.r.ticket.process == p {
      LoopTold(s, step, p);
    }
  }

  lemma LoopTold(s: State, step: Step, p: nat)
    requires step.Serve? && step.heard && step.r.ticket.process == p && Enabled(s, step)
    requires p in s.processes && InLoop(s.processes[p].place)
    ensures var q' := Told(s.processes[p], step.r, Passes(s, step.r));
            && q'.tenure == s.processes[p].tenure
            && if Refused(s, step, p) then q'.place == Ending else InLoop(q'.place)
  {
  }

  lemma LoopOwn(q: Process, epoch: Znode<nat>, step: Step)
    requires InLoop(q.place) && Fits(q.place, step)
    ensures var q' := Own(q, epoch, step);
            && q'.tenure == q.tenure
            && if (step.Check? && step.stop) || (step.CheckVoid? && q.flags.tenureVoid) || step.FailBuild?
                  || (step.FailWrite? && step.over)
               then q'.place == Ending else InLoop(q'.place)
  {
  }

  /** Lead's finally, before and after it has run. */
  ghost predicate Closed(q: Process, own: nat) {
    if own == 0 then q.place == Ending else q.place == Out && q.keeping == {}
  }

  lemma ClosingStep(s: State, step: Step, p: nat, own: nat)
    requires Enabled(s, step) && p in s.processes && SelfOk(s.processes[p]) && Closed(s.processes[p], own)
    ensures p in After(s, step).processes && step != SendSnapshot(p)
    ensures var q, q' := s.processes[p], After(s, step).processes[p];
            && q.tenure <= q'.tenure
            && (q'.tenure == q.tenure ==> Closed(q', own + if OwnStep(step, p) then 1 else 0))
  {
  }

  /** A tenure that is ending sends nothing more, and its next step of its own ends it. */
  lemma {:induction false} ClosingAlong(run: Run, i: nat, j: nat, p: nat)
    requires Behavior(run) && i <= j < |run.states| && p in run.states[i].processes
    requires run.states[i].processes[p].place == Ending
    ensures p in run.states[j].processes
    ensures var q, q' := run.states[i].processes[p], run.states[j].processes[p];
            && q.tenure <= q'.tenure
            && (q.tenure == q'.tenure ==>
                  SentBetween(run, i, j, p) == 0 && Closed(q', OwnBetween(run, i, j, p)))
    decreases j
  {
    if i < j {
      ClosingAlong(run, i, j - 1, p);
      Reached(run, j - 1);
      assert Linked(run, j - 1);
      TenureOneStep(run.states[j - 1], run.steps[j - 1], p);
      if run.states[i].processes[p].tenure == run.states[j - 1].processes[p].tenure {
        assert SelfOk(run.states[j - 1].processes[p]);
        ClosingStep(run.states[j - 1], run.steps[j - 1], p, OwnBetween(run, i, j - 1, p));
      }
    }
  }

  /** A snapshot refused for its epoch is the tenure's last: it sends nothing more, and after one more
      step of its own it is over and its keeper's work retired. */
  lemma RefusedStepsDown(run: Run, i: nat, j: nat, p: nat)
    requires Behavior(run) && i < j && SameTenure(run, i, j, p) && Refused(run.states[i], run.steps[i], p)
    ensures SentBetween(run, i + 1, j, p) == 0
    ensures var q := run.states[j].processes[p];
            if OwnBetween(run, i + 1, j, p) == 0 then q.place == Ending else q.place == Out && q.keeping == {}
  {
    assert Linked(run, i);
    LoopStep(run.states[i], run.steps[i], p);
    ClosingAlong(run, i + 1, j, p);
  }

  lemma NeverBack(s: State, step: Step, p: nat)
    requires Enabled(s, step) && p in s.processes && (s.processes[p].place == Ending || s.processes[p].place == Out)
    ensures p in After(s, step).processes
    ensures var q, q' := s.processes[p], After(s, step).processes[p];
            q'.tenure == q.tenure ==> q'.place == Ending || q'.place == Out
  {
  }

  /** A tenure under way is still so, whatever its session does meanwhile, exactly until one of the
      things that end it happens. */
  lemma {:induction false} TenureEndsExactly(run: Run, i: nat, j: nat, p: nat)
    requires Behavior(run) && SameTenure(run, i, j, p) && InLoop(run.states[i].processes[p].place)
    ensures var place := run.states[j].processes[p].place; InLoop(place) || place == Ending || place == Out
    ensures InLoop(run.states[j].processes[p].place) <==>
            forall k :: i <= k < j ==> !Ends(run.states[k], run.steps[k], p)
    decreases j
  {
    if i < j {
      StillThere(run, i, j - 1, p);
      StillThere(run, j - 1, j, p);
      TenureEndsExactly(run, i, j - 1, p);
      EndsOneMore(run, j - 1, p);
    }
  }

  lemma EndsOneMore(run: Run, i: nat, p: nat)
    requires Behavior(run) && SameTenure(run, i, i + 1, p)
    requires var place := run.states[i].processes[p].place; InLoop(place) || place == Ending || place == Out
    ensures var place, place' := run.states[i].processes[p].place, run.states[i + 1].processes[p].place;
            && (InLoop(place') || place' == Ending || place' == Out)
            && (InLoop(place') <==> InLoop(place) && !Ends(run.states[i], run.steps[i], p))
  {
    assert Linked(run, i);
    if InLoop(run.states[i].processes[p].place) {
      LoopStep(run.states[i], run.steps[i], p);
    } else {
      NeverBack(run.states[i], run.steps[i], p);
    }
  }

  lemma {:induction false} StillThere(run: Run, i: nat, j: nat, p: nat)
    requires Behavior(run) && i <= j < |run.states| && p in run.states[i].processes
    ensures p in run.states[j].processes && run.states[i].processes[p].tenure <= run.states[j].processes[p].tenure
    decreases j
  {
    if i < j {
      StillThere(run, i, j - 1, p);
      assert Linked(run, j - 1);
      TenureOneStep(run.states[j - 1], run.steps[j - 1], p);
    }
  }

  /** Every gate of a tenure, in terms of what its session did: it begins only while the session is
      up; its marker is made, its loop entered with the keeper at work, and a snapshot built, exactly
      if the session is up and was not lost since; and in doubt it is over exactly if it was lost. */
  lemma GatesExactly(run: Run, i: nat, p: nat)
    requires Behavior(run) && i < |run.steps| && p in run.states[i].processes
    ensures p in run.states[i + 1].processes
    ensures var q, q', step := run.states[i].processes[p], run.states[i + 1].processes[p], run.steps[i];
            var up, lost := SessionUp(q.history), LostThisTenure(q.history);
            && (step == Win(p) ==> if up then q'.place == Claiming && q'.tenure == q.tenure + 1 else q' == q)
            && (step == Recheck(p) ==> q'.place == if up && !lost then Acknowledging else Out)
            && (step == Confirm(p) ==>
                  && q'.token == q.token
                  && if up && !lost then q'.place == Top && q'.keeping == {q.token}
                     else q'.place == Out && q'.keeping == {})
            && (step == Check(p, false) ==> q'.place == if up && !lost then Cleared else Doubtful)
            && (step == CheckVoid(p) ==> q'.place == if lost then Ending else Top)
  {
    Reached(run, i);
    assert Linked(run, i);
    var s, q := run.states[i], run.states[i].processes[p];
    assert SelfOk(q);
    FlagsExact(q.history);
    if !run.steps[i].Serve? && run.steps[i].p == p {
      GateOwn(q, s.epoch, run.steps[i]);
    }
  }

  lemma GateOwn(q: Process, epoch: Znode<nat>, step: Step)
    requires SelfOk(q) && Fits(q.place, step)
    ensures var q' := Own(q, epoch, step);
            && (step.Win? ==> if q.flags.connected then q'.place == Claiming && q'.tenure == q.tenure + 1 else q' == q)
            && (step.Recheck? ==> q'.place == if MayWork(q.flags) then Acknowledging else Out)
            && (step.Confirm? ==>
                  && q'.token == q.token
                  && if MayWork(q.flags) then q'.place == Top && q'.keeping == {q.token}
                     else q'.place == Out && q'.keeping == {})
            && (step.Check? && !step.stop ==> q'.place == if MayWork(q.flags) then Cleared else Doubtful)
            && (step.CheckVoid? ==> q'.place == if q.flags.tenureVoid then Ending else Top)
  {
  }

  /** The keeper works for a tenure exactly from its confirmation until it finds its write refused, or
      the tenure ends. */
  lemma {:induction false} KeepingExactly(run: Run, i: nat, j: nat, p: nat)
    requires Behavior(run) && i < j && SameTenure(run, i, j, p) && run.steps[i] == Confirm(p)
    ensures var q := run.states[j].processes[p];
            && (q.place == Out || Leading(q.place))
            && q.keeping == if Leading(q.place) && forall k :: i < k < j ==> run.steps[k] != StandDown(p)
                            then {q.token} else {}
    decreases j
  {
    GatesExactly(run, i, p);
    if i + 1 < j {
      StillThere(run, i, j - 1, p);
      StillThere(run, j - 1, j, p);
      KeepingExactly(run, i, j - 1, p);
      Reached(run, j - 1);
      assert Linked(run, j - 1);
      KeepingStep(run.states[j - 1], run.steps[j - 1], p);
    }
  }

  /** A tenure that is leading or over, from one moment to the next. */
  predicate Keeps(q: Process, q': Process, standsDown: bool) {
    q'.tenure == q.tenure ==>
      && q'.token == q.token && (q'.place == Out || (Leading(q'.place) && Leading(q.place)))
      && q'.keeping == if q'.place == Out || standsDown then {} else q.keeping
  }

  lemma KeepingStep(s: State, step: Step, p: nat)
    requires Enabled(s, step) && p in s.processes && SelfOk(s.processes[p])
    requires s.processes[p].place == Out || Leading(s.processes[p].place)
    ensures p in After(s, step).processes
    ensures Keeps(s.processes[p], After(s, step).processes[p], step == StandDown(p))
  {
    if !step.Serve? && step.p == p {
      KeepingOwn(s.processes[p], s.epoch, step);
    }
  }

  lemma KeepingOwn(q: Process, epoch: Znode<nat>, step: Step)
    requires SelfOk(q) && Fits(q.place, step) && (q.place == Out || Leading(q.place))
    ensures Keeps(q, Own(q, epoch, step), step.StandDown?)
  {
  }

  // --- a process can lead --------------------------------------------------------------------------------

  function Last(run: Run): State
    requires run.states != []
  {
    run.states[|run.states| - 1]
  }

  /** `run` goes on as `next`. */
  ghost predicate Extends(run: Run, next: Run) {
    Behavior(run) && Behavior(next) && run.states <= next.states && run.steps <= next.steps
  }

  lemma Take(run: Run, step: Step) returns (next: Run)
    requires Behavior(run) && Enabled(Last(run), step)
    ensures Extends(run, next) && Last(next) == After(Last(run), step)
  {
    next := Run(run.states + [After(Last(run), step)], run.steps + [step]);
    forall i: nat | i < |next.steps|
      ensures Linked(next, i)
    {
      if i < |run.steps| {
        assert Linked(run, i);
      }
    }
  }

  /** A process that is out and connected can claim the next epoch. */
  lemma CanClaim(run: Run, p: nat) returns (next: Run)
    requires Behavior(run) && p in Last(run).processes
    requires Last(run).processes[p].place == Out && Last(run).processes[p].flags.connected
    ensures Extends(run, next) && p in Last(next).processes
    ensures Last(next).epoch.version == Last(run).epoch.version + 1 && Last(next).snapshot == Last(run).snapshot
    ensures var q := Last(next).processes[p];
            q.place == Claimed && MayWork(q.flags) && q.token == Last(next).epoch.version && q.keeping == {}
  {
    var s := Last(run);
    next := CanAsk(run, p);
    next := Take(next, Serve(Advance(Ticket(p, s.processes[p].tenure + 1), s.epoch.value + 1, s.epoch.version), true));
  }

  /** It wins, reads the epoch, and sends its claim. */
  lemma CanAsk(run: Run, p: nat) returns (next: Run)
    requires Behavior(run) && p in Last(run).processes
    requires Last(run).processes[p].place == Out && Last(run).processes[p].flags.connected
    ensures Extends(run, next) && p in Last(next).processes
    ensures Last(next).epoch == Last(run).epoch && Last(next).snapshot == Last(run).snapshot
    ensures var s, q := Last(run), Last(next).processes[p];
            && q.place == AwaitingClaim && MayWork(q.flags) && q.keeping == {}
            && q.tenure == s.processes[p].tenure + 1
            && Advance(Ticket(p, q.tenure), s.epoch.value + 1, s.epoch.version) in Last(next).requests
  {
    Reached(run, |run.states| - 1);
    assert SelfOk(Last(run).processes[p]);
    next := Take(run, Win(p));
    next := Take(next, Read(p));
    next := Take(next, SendClaim(p));
  }

  /** With a token and its session, it can begin its tenure, keeper and all. */
  lemma CanBegin(run: Run, p: nat) returns (next: Run)
    requires Behavior(run) && p in Last(run).processes
    requires Last(run).processes[p].place == Claimed && MayWork(Last(run).processes[p].flags)
    ensures Extends(run, next) && p in Last(next).processes
    ensures Last(next).epoch == Last(run).epoch && Last(next).snapshot == Last(run).snapshot
    ensures var q := Last(run).processes[p];
            Last(next).processes[p] == q.(place := Top, keeping := q.keeping + {q.token})
  {
    next := Take(run, Recheck(p));
    next := Take(next, Acknowledge(p, true));
    next := Take(next, Confirm(p));
  }

  /** At the head of the loop under the newest epoch, it can write a snapshot and come round again. */
  lemma CanWrite(run: Run, p: nat) returns (next: Run)
    requires Behavior(run) && p in Last(run).processes
    requires Last(run).processes[p].place == Top && MayWork(Last(run).processes[p].flags)
    requires Last(run).processes[p].token == Last(run).epoch.version
    ensures Extends(run, next) && p in Last(next).processes
    ensures Last(next).epoch == Last(run).epoch
    ensures Last(next).snapshot == Znode(Some(Last(run).epoch.version), Last(run).snapshot.version + 1)
    ensures var q := Last(run).processes[p]; Last(next).processes[p] == q.(sent := q.sent + 1)
  {
    var q := Last(run).processes[p];
    next := Take(run, Check(p, false));
    next := Take(next, SendSnapshot(p));
    next := Take(next, Serve(Snapshot(Mine(p, q), q.token, q.sent + 1), true));
  }

  /** Whatever happened before, a process that is out and connected can go on to lead under the next
      epoch and have any number of snapshots accepted, with its keeper at work. */
  lemma {:induction false} CanLead(run: Run, p: nat, n: nat) returns (next: Run)
    requires Behavior(run) && p in Last(run).processes
    requires Last(run).processes[p].place == Out && Last(run).processes[p].flags.connected
    ensures Extends(run, next) && p in Last(next).processes
    ensures var q, token := Last(next).processes[p], Last(run).epoch.version + 1;
            && q.place == Top && MayWork(q.flags) && q.token == token && q.keeping == {token}
            && Last(next).epoch.version == token
            && Last(next).snapshot.version == Last(run).snapshot.version + n
            && (n > 0 ==> Last(next).snapshot.value == Some(token))
  {
    if n == 0 {
      next := CanClaim(run, p);
      next := CanBegin(next, p);
    } else {
      next := CanLead(run, p, n - 1);
      next := CanWrite(next, p);
    }
  }

  // --- the claim loop ---------------------------------------------------------------------------------

  /** The `/epoch` znode. */
  class EpochNode {
    var value: nat
    var version: nat

    constructor ()
      ensures value == 0 && version == 0
    {
      value, version := 0, 0;
    }

    /** A set with a version: refused, and nothing changed, if it is not the current one. */
    method CompareAndSet(v: nat, expected: nat) returns (stat: Option<nat>)
      modifies this
      ensures if old(version) == expected
              then value == v && version == expected + 1 && stat == Some(version)
              else value == old(value) && version == old(version) && stat == None
    {
      if version == expected {
        value, version := v, version + 1;
        return Some(version);
      }
      return None;
    }
  }

  /** Others claim, `n` of them. */
  method Rivals(node: EpochNode, n: nat)
    modifies node
    ensures node.version == old(node.version) + n && node.value == old(node.value) + n
  {
    for k := 0 to n
      invariant node.version == old(node.version) + k && node.value == old(node.value) + k
    {
      var _ := node.CompareAndSet(node.value + 1, node.version);
    }
  }

  /** `claim_epoch`. Between its k-th read and set, `rivals[k]` others claim; after those, none.
      It tries again exactly as often as it was beaten, each failure has a rival to show for it,
      and the token is the version after everyone counted so far. */
  method ClaimEpoch(node: EpochNode, rivals: seq<nat>) returns (token: nat, tries: nat)
    modifies node
    ensures 1 <= tries <= |rivals| + 1
    ensures forall k :: 0 <= k < tries - 1 ==> rivals[k] > 0
    ensures tries <= |rivals| ==> rivals[tries - 1] == 0
    ensures token == node.version == old(node.version) + Sum(rivals[..tries - 1]) + 1
    ensures node.value - old(node.value) == node.version - old(node.version)
  {
    tries := 0;
    while true
      invariant 0 <= tries <= |rivals|
      invariant forall k :: 0 <= k < tries ==> rivals[k] > 0
      invariant node.version == old(node.version) + Sum(rivals[..tries])
      invariant node.value - old(node.value) == node.version - old(node.version)
      decreases |rivals| - tries
    {
      var value, version := node.value, node.version;
      Rivals(node, if tries < |rivals| then rivals[tries] else 0);
      var stat := node.CompareAndSet(value + 1, version);
      tries := tries + 1;
      if stat.Some? {
        return stat.value, tries;
      }
      assert rivals[..tries][..tries - 1] == rivals[..tries - 1];
    }
  }
}
