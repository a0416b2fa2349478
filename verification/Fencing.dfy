/** The epoch that fences every leader-only write, and the leaders that live under it:
    `claim_epoch` and `write_snapshot` of src/pipeline/coordination.py, `lead` of
    src/pipeline/coordinator.py.

    Any number of processes win elections, claim epochs and write snapshots. A request that was
    sent may be served late or never, its reply may be lost, and every process's session may
    come and go between any two of its steps. */
module Fencing {
  import opened Basics
  import opened Leadership

  /** One tenure of one process. */
  datatype Ticket = Ticket(process: nat, tenure: nat)

  datatype Znode<T> = Znode(value: T, version: nat)

  /** What ZooKeeper did, in order: who took an epoch, whose snapshot was accepted. */
  datatype Entry = Claim(ticket: Ticket) | Accept(ticket: Ticket, token: nat)

  /** Sent and not yet served. `nth` tells a tenure's snapshot writes apart. */
  datatype Request =
    | Advance(ticket: Ticket, value: nat, version: nat)
    | Snapshot(ticket: Ticket, token: nat, nth: nat)

  datatype Place =
    | Out                     // not leading
    | Claiming                // in claim_epoch, about to read
    | HasRead(value: nat, version: nat)
    | AwaitingClaim
    | Claimed                 // has a token
    | Acknowledging           // about to create the marker
    | Acknowledged
    | Top                     // the head of lead's loop
    | Doubtful                // may_work said no
    | Cleared                 // may_work said yes; the snapshot is being built
    | AwaitingWrite
    | Ending                  // lead's finally

  /** `keeping` is the keeper's unretired tenures, by epoch; `late` counts the snapshot writes
      this tenure has sent since it lost its session. */
  datatype Process = Process(
    flags: Flags, history: seq<Event>, place: Place, tenure: nat, token: nat,
    keeping: set<nat>, sent: nat, late: nat)

  datatype State = State(
    epoch: Znode<nat>, snapshot: Znode<Option<nat>>, journal: seq<Entry>,
    requests: set<Request>, processes: map<nat, Process>)

  const FRESH := Process(START, [], Out, 0, 0, {}, 0, 0)

  /** `cluster init`: nothing claimed, a snapshot with no epoch. */
  predicate Init(s: State) {
    && s.epoch == Znode(0, 0) && s.snapshot == Znode(None, 0) && s.journal == [] && s.requests == {}
    && forall p :: p in s.processes ==> s.processes[p] == FRESH
  }

  datatype Step =
    | Session(p: nat, state: Connection)
    | Win(p: nat)
    | Read(p: nat)
    | SendClaim(p: nat)
    | FailClaim(p: nat)            // an error out of claim_epoch
    | Serve(r: Request, heard: bool)
    | Recheck(p: nat)
    | Acknowledge(p: nat, created: bool)
    | Confirm(p: nat)
    | Check(p: nat, stop: bool)    // the loop's condition, then may_work
    | CheckVoid(p: nat)
    | FailBuild(p: nat)            // an error out of build_snapshot
    | SendSnapshot(p: nat)
    | FailWrite(p: nat, over: bool) // ConnectionLoss, or anything that ends the tenure
    | Finish(p: nat)
    | StandDown(p: nat)            // the keeper retires a tenure whose write was refused

  function Mine(p: nat, q: Process): Ticket {
    Ticket(p, q.tenure)
  }

  /** The fence: the transaction's check, or the versioned set's own. */
  predicate Passes(s: State, r: Request) {
    match r
    case Advance(_, _, version) => version == s.epoch.version
    case Snapshot(_, token, _) => token == s.epoch.version
  }

  /** What serving a request does to the tree. */
  function Served(s: State, r: Request): State {
    var s := s.(requests := s.requests - {r});
    if !Passes(s, r) then s else
      match r
      case Advance(ticket, value, version) =>
        s.(epoch := Znode(value, version + 1), journal := s.journal + [Claim(ticket)])
      case Snapshot(ticket, token, _) =>
        s.(snapshot := Znode(Some(token), s.snapshot.version + 1), journal := s.journal + [Accept(ticket, token)])
  }

  /** What its reply tells the process that waits for it. */
  function Told(q: Process, r: Request, passed: bool): Process {
    match r
    case Advance(_, _, version) => if passed then q.(place := Claimed, token := version + 1) else q.(place := Claiming)
    case Snapshot(_, _, _) => q.(place := if passed then Top else Ending)
  }

  predicate Waits(s: State, r: Request) {
    var p := r.ticket.process;
    && p in s.processes && r.ticket == Mine(p, s.processes[p])
    && match r
       case Advance(_, _, _) => s.processes[p].place == AwaitingClaim
       case Snapshot(_, _, nth) => s.processes[p].place == AwaitingWrite && nth == s.processes[p].sent
  }

  /** Where a process must be to take a step of its own. */
  predicate Fits(place: Place, step: Step) {
    match step
    case Session(_, _) => true
    case Win(_) => place == Out
    case Read(_) => place == Claiming
    case SendClaim(_) => place.HasRead?
    case FailClaim(_) => place == Claiming || place.HasRead? || place == AwaitingClaim
    case Recheck(_) => place == Claimed
    case Acknowledge(_, _) => place == Acknowledging
    case Confirm(_) => place == Acknowledged
    case Check(_, _) => place == Top
    case CheckVoid(_) => place == Doubtful
    case FailBuild(_) => place == Cleared
    case SendSnapshot(_) => place == Cleared
    case FailWrite(_, _) => place == AwaitingWrite
    case Finish(_) => place == Ending
    case StandDown(_) => Leading(place)
    case Serve(_, _) => false
  }

  predicate Enabled(s: State, step: Step) {
    if step.Serve? then step.r in s.requests && (step.heard ==> Waits(s, step.r))
    else
      && step.p in s.processes && Fits(s.processes[step.p].place, step)
      && (step.StandDown? ==> s.processes[step.p].token != s.epoch.version)
  }

  /** A process's own step, given what it sees of the tree. */
  function Own(q: Process, epoch: Znode<nat>, step: Step): Process {
    match step
    case Session(_, state) => q.(flags := On(q.flags, Change(state)), history := q.history + [Change(state)])
    case Win(_) =>
      if !q.flags.connected then q else
        Process(On(q.flags, Began), q.history + [Began], Claiming, q.tenure + 1, 0, q.keeping, 0, 0)
    case Read(_) => q.(place := HasRead(epoch.value, epoch.version))
    case SendClaim(_) => q.(place := AwaitingClaim)
    case FailClaim(_) => q.(place := Out)
    case Recheck(_) => q.(place := if MayWork(q.flags) then Acknowledging else Out)
    case Acknowledge(_, created) => q.(place := if created then Acknowledged else Out)
    case Confirm(_) => if MayWork(q.flags) then q.(place := Top, keeping := q.keeping + {q.token}) else q.(place := Out)
    case Check(_, stop) => q.(place := if stop then Ending else if MayWork(q.flags) then Cleared else Doubtful)
    case CheckVoid(_) => q.(place := if q.flags.tenureVoid then Ending else Top)
    case FailBuild(_) => q.(place := Ending)
    case SendSnapshot(_) =>
      q.(place := AwaitingWrite, sent := q.sent + 1, late := q.late + if q.flags.tenureVoid then 1 else 0)
    case FailWrite(_, over) => q.(place := if over then Ending else Top)
    case Finish(_) => q.(place := Out, keeping := q.keeping - {q.token})
    case StandDown(_) => q.(keeping := q.keeping - {q.token})
    case Serve(_, _) => q
  }

  /** The request a process's step sends. */
  function Sends(q: Process, step: Step): set<Request>
    requires step.SendClaim? ==> q.place.HasRead?
  {
    match step
    case SendClaim(p) => {Advance(Mine(p, q), q.place.value + 1, q.place.version)}
    case SendSnapshot(p) => {Snapshot(Mine(p, q), q.token, q.sent + 1)}
    case _ => {}
  }

  function After(s: State, step: Step): State
    requires Enabled(s, step)
  {
    if step.Serve? then
      var s', p := Served(s, step.r), step.r.ticket.process;
      if step.heard then s'.(processes := s.processes[p := Told(s.processes[p], step.r, Passes(s, step.r))]) else s'
    else
      var q := s.processes[step.p];
      s.(processes := s.processes[step.p := Own(q, s.epoch, step)], requests := s.requests + Sends(q, step))
  }

  // --- the invariant --------------------------------------------------------------------------

  /** The tenures that took an epoch, in order: the k-th has token k + 1. */
  function Claims(journal: seq<Entry>): seq<Ticket> {
    if journal == [] then [] else
      var last := journal[|journal| - 1];
      Claims(journal[..|journal| - 1]) + if last.Claim? then [last.ticket] else []
  }

  ghost predicate Holds(token: nat, t: Ticket, claims: seq<Ticket>) {
    1 <= token <= |claims| && claims[token - 1] == t
  }

  /** Each snapshot was accepted under the newest epoch of its time, from that epoch's tenure. */
  ghost predicate AcceptedUnderNewest(journal: seq<Entry>) {
    forall k :: 0 <= k < |journal| && journal[k].Accept? ==>
      var claims := Claims(journal[..k]);
      journal[k].token == |claims| && Holds(journal[k].token, journal[k].ticket, claims)
  }

  /** The latest accepted snapshot's epoch. */
  function LastAccepted(journal: seq<Entry>): Option<nat> {
    if journal == [] then None else
      var last := journal[|journal| - 1];
      if last.Accept? then Some(last.token) else LastAccepted(journal[..|journal| - 1])
  }

  ghost predicate TreeOk(epoch: Znode<nat>, snapshot: Znode<Option<nat>>, journal: seq<Entry>) {
    && epoch.value == epoch.version == |Claims(journal)|
    && snapshot.value == LastAccepted(journal)
    && AcceptedUnderNewest(journal)
  }

  predicate HasToken(place: Place) {
    place.Claimed? || place.Acknowledging? || place.Acknowledged? || Leading(place)
  }

  predicate Leading(place: Place) {
    place.Top? || place.Doubtful? || place.Cleared? || place.AwaitingWrite? || place.Ending?
  }

  /** What a process knows of itself. */
  ghost predicate SelfOk(q: Process) {
    && q.flags == FlagsOf(q.history)
    && q.keeping <= (if Leading(q.place) then {q.token} else {})
    && q.late <= 1 && (q.place.Cleared? || !q.flags.tenureVoid ==> q.late == 0)
    && (q.place.HasRead? ==> q.place.value == q.place.version)
  }

  /** How it stands with the tree. */
  ghost predicate StandsOk(p: nat, q: Process, claims: seq<Ticket>, requests: set<Request>) {
    && (HasToken(q.place) ==> Holds(q.token, Mine(p, q), claims))
    && (Leading(q.place) && q.token == |claims| ==> q.keeping == {q.token})
    && (q.place.HasRead? ==> q.place.version <= |claims|)
    && (q.place.Claiming? || q.place.HasRead? ==>
          Mine(p, q) !in claims && forall r :: r in requests && r.Advance? ==> r.ticket != Mine(p, q))
    && (forall k :: 0 <= k < |claims| && claims[k].process == p ==> claims[k].tenure <= q.tenure)
  }

  ghost predicate RequestOk(r: Request, claims: seq<Ticket>, processes: map<nat, Process>) {
    match r
    case Advance(ticket, value, version) =>
      && ticket !in claims && value == version + 1 && version <= |claims|
      && ticket.process in processes && ticket.tenure <= processes[ticket.process].tenure
      && (ticket.tenure == processes[ticket.process].tenure ==>
          var place := processes[ticket.process].place; place.AwaitingClaim? || place.Out?)
    case Snapshot(ticket, token, _) => Holds(token, ticket, claims)
  }

  ghost predicate Distinct(requests: set<Request>) {
    forall r, r' :: r in requests && r' in requests && r.Advance? && r'.Advance? && r.ticket == r'.ticket ==> r == r'
  }

  ghost predicate Inv(s: State) {
    && TreeOk(s.epoch, s.snapshot, s.journal)
    && (forall p :: p in s.processes ==> SelfOk(s.processes[p]))
    && (forall p :: p in s.processes ==> StandsOk(p, s.processes[p], Claims(s.journal), s.requests))
    && (forall r :: r in s.requests ==> RequestOk(r, Claims(s.journal), s.processes))
    && Distinct(s.requests)
  }

  lemma SelfKept(q: Process, epoch: Znode<nat>, step: Step)
    requires SelfOk(q) && epoch.value == epoch.version
    requires Fits(q.place, step)
    ensures SelfOk(Own(q, epoch, step))
  {
    match step
    case Session(_, state) => FlagsOneMore(q.history, Change(state));
    case Win(_) => FlagsOneMore(q.history, Began);
    case _ => PlaceKept(q, epoch, step);
  }

  /** A step that only moves a process on. */
  lemma PlaceKept(q: Process, epoch: Znode<nat>, step: Step)
    requires SelfOk(q) && epoch.value == epoch.version && Fits(q.place, step) && !step.Session? && !step.Win?
    ensures var q' := Own(q, epoch, step);
            && q'.flags == q.flags && q'.history == q.history
            && q'.keeping <= (if Leading(q'.place) then {q'.token} else {})
            && q'.late <= 1 && (q'.place.Cleared? || !q'.flags.tenureVoid ==> q'.late == 0)
            && (q'.place.HasRead? ==> q'.place.value == q'.place.version)
  {
  }

  lemma OwnKeeps(s: State, step: Step)
    requires Inv(s) && Enabled(s, step) && !step.Serve?
    ensures Inv(After(s, step))
  {
    var s', p, q, claims := After(s, step), step.p, s.processes[step.p], Claims(s.journal);
    SelfKept(q, s.epoch, step);
    assert forall r :: r in s.requests ==> RequestOk(r, claims, s.processes);
    StandsKept(p, q, claims, s.requests, s.epoch, step);
    forall o | o in s.processes && o != p
      ensures StandsOk(o, s.processes[o], claims, s'.requests)
    {
      OthersStand(s, step, o);
    }
    OwnWaits(q, s.epoch, step);
    forall r | r in s'.requests
      ensures RequestOk(r, claims, s'.processes)
    {
      if r in s.requests {
        OldRequest(r, claims, s.processes, p, Own(q, s.epoch, step));
      } else {
        NewRequest(r, claims, s.processes, q, s.requests, s.epoch, step);
      }
    }
    SendsDistinct(s, step);
  }

  lemma OthersStand(s: State, step: Step, o: nat)
    requires Enabled(s, step) && !step.Serve? && o in s.processes && o != step.p
    requires StandsOk(o, s.processes[o], Claims(s.journal), s.requests)
    ensures StandsOk(o, s.processes[o], Claims(s.journal), s.requests + Sends(s.processes[step.p], step))
  {
  }

  lemma SendsDistinct(s: State, step: Step)
    requires Distinct(s.requests) && Enabled(s, step) && !step.Serve?
    requires StandsOk(step.p, s.processes[step.p], Claims(s.journal), s.requests)
    ensures Distinct(s.requests + Sends(s.processes[step.p], step))
  {
  }

  /** A process that takes a step of its own. */
  lemma StandsKept(p: nat, q: Process, claims: seq<Ticket>, requests: set<Request>, epoch: Znode<nat>, step: Step)
    requires StandsOk(p, q, claims, requests) && SelfOk(q) && Fits(q.place, step) && step.p == p
    requires epoch.version == |claims| && (step.StandDown? ==> q.token != epoch.version)
    requires forall r :: r in requests && r.Advance? && r.ticket.process == p ==> r.ticket.tenure <= q.tenure
    ensures StandsOk(p, Own(q, epoch, step), claims, requests + Sends(q, step))
  {
    var q', requests' := Own(q, epoch, step), requests + Sends(q, step);
    if step.Win? && q.flags.connected {
      FreshTicket(p, q, claims);
      assert forall r :: r in requests' ==> r in requests;
    }
    assert step.Read? || step.SendClaim? ==> Mine(p, q') == Mine(p, q);
  }

  lemma FreshTicket(p: nat, q: Process, claims: seq<Ticket>)
    requires forall k :: 0 <= k < |claims| && claims[k].process == p ==> claims[k].tenure <= q.tenure
    ensures Ticket(p, q.tenure + 1) !in claims
  {
  }

  /** Whoever waits for a claim, or has given up on one, goes on so or moves to another tenure. */
  predicate GoesOnWaiting(q: Process, q': Process) {
    && q.tenure <= q'.tenure
    && (q'.tenure == q.tenure && (q.place.AwaitingClaim? || q.place.Out?) ==> q'.place.AwaitingClaim? || q'.place.Out?)
  }

  lemma OwnWaits(q: Process, epoch: Znode<nat>, step: Step)
    requires Fits(q.place, step)
    ensures GoesOnWaiting(q, Own(q, epoch, step))
  {
  }

  lemma OldRequest(r: Request, claims: seq<Ticket>, processes: map<nat, Process>, p: nat, q': Process)
    requires RequestOk(r, claims, processes) && p in processes && GoesOnWaiting(processes[p], q')
    ensures RequestOk(r, claims, processes[p := q'])
  {
    match r
    case Advance(ticket, _, _) =>
      assert ticket.process != p ==> processes[p := q'][ticket.process] == processes[ticket.process];
    case Snapshot(_, _, _) =>
  }

  lemma NewRequest(r: Request, claims: seq<Ticket>, processes: map<nat, Process>, q: Process, requests: set<Request>,
                   epoch: Znode<nat>, step: Step)
    requires !step.Serve? && step.p in processes && processes[step.p] == q && Fits(q.place, step)
    requires SelfOk(q) && StandsOk(step.p, q, claims, requests) && r in Sends(q, step)
    ensures RequestOk(r, claims, processes[step.p := Own(q, epoch, step)])
  {
  }

  lemma ClaimsOneMore(journal: seq<Entry>, e: Entry)
    ensures Claims(journal + [e]) == Claims(journal) + if e.Claim? then [e.ticket] else []
    ensures LastAccepted(journal + [e]) == if e.Accept? then Some(e.token) else LastAccepted(journal)
  {
  }

  lemma JournalKept(journal: seq<Entry>, e: Entry)
    requires AcceptedUnderNewest(journal)
    requires e.Accept? ==> e.token == |Claims(journal)| && Holds(e.token, e.ticket, Claims(journal))
    ensures AcceptedUnderNewest(journal + [e])
  {
    var all := journal + [e];
    forall k | 0 <= k < |all| && all[k].Accept?
      ensures all[k].token == |Claims(all[..k])| && Holds(all[k].token, all[k].ticket, Claims(all[..k]))
    {
      assert all[..k] == journal[..k];
      if k == |journal| {
        assert all[..k] == journal;
      }
    }
  }

  lemma TreeKept(s: State, r: Request)
    requires TreeOk(s.epoch, s.snapshot, s.journal) && RequestOk(r, Claims(s.journal), s.processes)
    ensures var s' := Served(s, r); TreeOk(s'.epoch, s'.snapshot, s'.journal)
  {
    if Passes(s, r) {
      var e := if r.Advance? then Claim(r.ticket) else Accept(r.ticket, r.token);
      ClaimsOneMore(s.journal, e);
      JournalKept(s.journal, e);
    }
  }

  /** Serving a request, heard or not, adds at most its own ticket to the claims. */
  lemma ServedClaims(s: State, r: Request)
    ensures Claims(Served(s, r).journal) ==
            Claims(s.journal) + if r.Advance? && Passes(s, r) then [r.ticket] else []
  {
  }

  /** A process that hears nothing stands as it did. */
  lemma StandsStill(p: nat, q: Process, claims: seq<Ticket>, requests: set<Request>, r: Request, more: seq<Ticket>)
    requires StandsOk(p, q, claims, requests) && r in requests
    requires more == [] || (r.Advance? && more == [r.ticket])
    requires r.Advance? && r.ticket.process == p ==> r.ticket.tenure <= q.tenure
    ensures StandsOk(p, q, claims + more, requests - {r})
  {
  }

  /** One that hears its claim's fate has the token, or neither claim nor request. */
  lemma StandsTold(p: nat, q: Process, claims: seq<Ticket>, requests: set<Request>, r: Request, passed: bool)
    requires StandsOk(p, q, claims, requests) && Distinct(requests) && r in requests && r.ticket == Mine(p, q)
    requires if r.Advance? then r.ticket !in claims && (passed ==> r.version == |claims|) else q.place.AwaitingWrite?
    ensures StandsOk(p, Told(q, r, passed), claims + (if r.Advance? && passed then [r.ticket] else []), requests - {r})
  {
  }

  lemma ServeKeepsProcess(s: State, step: Step, p: nat)
    requires Inv(s) && Enabled(s, step) && step.Serve? && p in s.processes
    ensures var s' := After(s, step);
            && SelfOk(s'.processes[p])
            && StandsOk(p, s'.processes[p], Claims(s'.journal), s'.requests)
  {
    var r, q, claims := step.r, s.processes[p], Claims(s.journal);
    ServedClaims(s, r);
    assert RequestOk(r, claims, s.processes);
    if step.heard && p == r.ticket.process {
      StandsTold(p, q, claims, s.requests, r, Passes(s, r));
    } else {
      StandsStill(p, q, claims, s.requests, r, if r.Advance? && Passes(s, r) then [r.ticket] else []);
    }
  }

  lemma ServeKeepsRequests(s: State, step: Step, r: Request)
    requires Inv(s) && Enabled(s, step) && step.Serve? && r in s.requests - {step.r}
    ensures RequestOk(r, Claims(After(s, step).journal), After(s, step).processes)
  {
    var r0, claims := step.r, Claims(s.journal);
    ServedClaims(s, r0);
    assert RequestOk(r0, claims, s.processes) && RequestOk(r, claims, s.processes);
    RequestStays(r, r0, claims, if r0.Advance? && Passes(s, r0) then [r0.ticket] else [], s.processes);
    if step.heard {
      var p := r0.ticket.process;
      RequestUntold(r, r0, Claims(After(s, step).journal), s.processes, p, Told(s.processes[p], r0, Passes(s, r0)));
    }
  }

  /** Serving another request takes nothing from this one. */
  lemma RequestStays(r: Request, r0: Request, claims: seq<Ticket>, more: seq<Ticket>, processes: map<nat, Process>)
    requires RequestOk(r, claims, processes) && (more == [] || (r0.Advance? && more == [r0.ticket]))
    requires r.Advance? && r0.Advance? ==> r.ticket != r0.ticket
    ensures RequestOk(r, claims + more, processes)
  {
  }

  /** Nor does telling its sender, who is not waiting for this one. */
  lemma RequestUntold(r: Request, r0: Request, claims: seq<Ticket>, processes: map<nat, Process>, p: nat, q': Process)
    requires RequestOk(r, claims, processes) && p in processes && q'.tenure == processes[p].tenure
    requires r0.Advance? ==> r0.ticket == Mine(p, processes[p]) && (r.Advance? ==> r.ticket != r0.ticket)
    requires r0.Snapshot? ==> processes[p].place.AwaitingWrite?
    ensures RequestOk(r, claims, processes[p := q'])
  {
    match r
    case Advance(ticket, _, _) =>
      assert ticket.process != p ==> processes[p := q'][ticket.process] == processes[ticket.process];
    case Snapshot(_, _, _) =>
  }

  lemma InvKept(s: State, step: Step)
    requires Inv(s) && Enabled(s, step)
    ensures Inv(After(s, step))
  {
    if !step.Serve? {
      OwnKeeps(s, step);
    } else {
      var s' := After(s, step);
      TreeKept(s, step.r);
      forall p | p in s'.processes
        ensures SelfOk(s'.processes[p]) && StandsOk(p, s'.processes[p], Claims(s'.journal), s'.requests)
      {
        ServeKeepsProcess(s, step, p);
      }
      forall r | r in s'.requests
        ensures RequestOk(r, Claims(s'.journal), s'.processes)
      {
        ServeKeepsRequests(s, step, r);
      }
    }
  }
}
