/** Fan-out from one subscription to every socket: src/pipeline/fanout.py, with the admission
    slot of src/pipeline/api.py.

    Everything runs on one event loop, and none of these methods awaits, so every interleaving
    of sockets is a sequence of calls. `Hub` is admission, membership and the broadcast;
    `Endpoint` is where each socket stands between being admitted and giving its slot back. */
module Fanout {
  import opened Basics

  /** One socket's queue: what it was given first, what waits in it, and whether it was evicted.
      The rest is history: what its sender has taken, how many broadcasts preceded its joining,
      and how many had been made when it left. */
  datatype Member = Member(first: string, queue: seq<string>, evicted: bool, taken: seq<string>, joined: nat, left: nat)

  /** What has reached a member: taken, then still queued. */
  function Received(m: Member): seq<string> {
    m.taken + m.queue
  }

  /** A member of the fan-out has missed nothing since it joined. */
  ghost predicate Current(m: Member, sent: seq<string>) {
    !m.evicted && m.joined <= |sent| && Received(m) == [m.first] + sent[m.joined..]
  }

  /** One that left or was evicted had missed nothing until then. */
  ghost predicate Former(m: Member, sent: seq<string>) {
    m.joined <= m.left <= |sent| && Received(m) == [m.first] + sent[m.joined..m.left]
  }

  /** asyncio's queue of size zero or less has no bound. */
  predicate Full(m: Member, queueSize: nat) {
    0 < queueSize <= |m.queue|
  }

  /** A non-blocking put: a full queue means eviction instead. */
  function Put(m: Member, text: string, queueSize: nat, sent: nat): Member {
    if Full(m, queueSize) then m.(evicted := true, left := sent) else m.(queue := m.queue + [text])
  }

  lemma PutKeeps(m: Member, text: string, queueSize: nat, sent: seq<string>)
    requires Current(m, sent)
    ensures var m' := Put(m, text, queueSize, |sent|);
            if Full(m, queueSize) then Former(m', sent + [text]) else Current(m', sent + [text])
  {
    var all := sent + [text];
    assert all[m.joined..|sent|] == sent[m.joined..];
    assert all[m.joined..] == sent[m.joined..] + [text];
    assert Received(m) + [text] == m.taken + (m.queue + [text]);
  }

  /** Those told to stop because they could not keep up. */
  ghost function Evicted(known: map<nat, Member>): set<nat> {
    set i | i in known && known[i].evicted
  }

  lemma SameEvicted(known: map<nat, Member>, i: nat, m: Member)
    requires if i in known then m.evicted == known[i].evicted else !m.evicted
    ensures Evicted(known[i := m]) == Evicted(known)
  {
  }

  /** No member, current or former, has a gap in what it received. */
  ghost predicate NoGaps(members: set<nat>, known: map<nat, Member>, sent: seq<string>) {
    && members <= known.Keys
    && (forall i :: i in members ==> Current(known[i], sent))
    && (forall i :: i in known && i !in members ==> Former(known[i], sent))
  }

  class Hub {
    const limit: nat
    const queueSize: nat
    var admitted: int
    var members: set<nat>
    var evictions: nat
    // Every member that ever joined, by identity; a former one's sender may still be running.
    var known: map<nat, Member>
    // Every broadcast so far.
    var sent: seq<string>

    ghost predicate Valid()
      reads this
    {
      && NoGaps(members, known, sent)
      && (forall i :: i in known && queueSize > 0 ==> |known[i].queue| <= queueSize)
      && evictions == |Evicted(known)|
    }

    constructor (limit: nat, queueSize: nat)
      ensures Valid() && this.limit == limit && this.queueSize == queueSize
      ensures members == {} && known == map[] && sent == [] && admitted == 0
    {
      this.limit, this.queueSize := limit, queueSize;
      admitted, members, evictions, known := 0, {}, 0, map[];
      sent := [];
    }

    method Admit() returns (ok: bool)
      modifies this`admitted
      ensures ok == (old(admitted) < limit) && admitted == old(admitted) + if ok then 1 else 0
    {
      ok := admitted < limit;
      if ok {
        admitted := admitted + 1;
      }
    }

    method Release()
      modifies this`admitted
      ensures admitted == old(admitted) - 1
    {
      admitted := admitted - 1;
    }

    /** The first message is queued before anything broadcast can be. */
    method Join(i: nat, first: string)
      requires Valid() && i !in known
      modifies this`members, this`known
      ensures Valid() && members == old(members) + {i}
      ensures known == old(known)[i := Member(first, [first], false, [], |sent|, 0)]
    {
      var m := Member(first, [first], false, [], |sent|, 0);
      SameEvicted(known, i, m);
      known := known[i := m];
      members := members + {i};
    }

    method Leave(i: nat)
      requires Valid() && i in known
      modifies this`members, this`known
      ensures Valid() && members == old(members) - {i}
      ensures known == if i in old(members) then old(known)[i := old(known)[i].(left := |sent|)] else old(known)
    {
      if i in members {
        SameEvicted(known, i, known[i].(left := |sent|));
        known := known[i := known[i].(left := |sent|)];
        members := members - {i};
      }
    }

    /** The sender takes the next message, evicted or not: its task may not have stopped yet. */
    method Take(i: nat) returns (text: string)
      requires Valid() && i in known && known[i].queue != []
      modifies this`known
      ensures Valid() && text == old(known)[i].queue[0]
      ensures known == old(known)[i := old(known)[i].(queue := old(known)[i].queue[1..],
                                                      taken := old(known)[i].taken + [text])]
    {
      var m := known[i];
      text := m.queue[0];
      SameEvicted(known, i, m.(queue := m.queue[1..], taken := m.taken + [text]));
      known := known[i := m.(queue := m.queue[1..], taken := m.taken + [text])];
      assert Received(known[i]) == Received(m);
    }

    /** A put to each member in turn, none waited for. */
    method PutAll(text: string)
      requires members <= known.Keys
      modifies this`members, this`known, this`evictions
      ensures members == old(members) - Overflowing(old(members), old(known), queueSize)
      ensures known == AfterPut(old(members), old(known), text, queueSize, |sent|)
      ensures evictions == old(evictions) + |Overflowing(old(members), old(known), queueSize)|
    {
      var rest, n := members, |sent|;
      ghost var all, before, done := members, known, {};
      while rest != {}
        invariant done !! rest && done + rest == all
        invariant members == all - Overflowing(done, before, queueSize)
        invariant known == AfterPut(done, before, text, queueSize, n)
        invariant evictions == old(evictions) + |Overflowing(done, before, queueSize)|
        decreases rest
      {
        var i :| i in rest;
        OneMorePut(all, done, before, i, text, queueSize, n);
        PutOne(i, text, n);
        rest, done := rest - {i}, done + {i};
      }
      assert done == all;
    }

    method PutOne(i: nat, text: string, n: nat)
      requires i in known
      modifies this`members, this`known, this`evictions
      ensures known == old(known)[i := Put(old(known)[i], text, queueSize, n)]
      ensures Full(old(known)[i], queueSize) ==> members == old(members) - {i} && evictions == old(evictions) + 1
      ensures !Full(old(known)[i], queueSize) ==> members == old(members) && evictions == old(evictions)
    {
      var m := known[i];
      if Full(m, queueSize) {
        members := members - {i};
        evictions := evictions + 1;
        known := known[i := m.(evicted := true, left := n)];
      } else {
        known := known[i := m.(queue := m.queue + [text])];
      }
    }

    /** To every member without waiting for any: one whose queue is full is evicted at once. */
    method Broadcast(text: string)
      requires Valid()
      modifies this`members, this`known, this`evictions, this`sent
      ensures Valid() && sent == old(sent) + [text]
      ensures members == old(members) - Overflowing(old(members), old(known), queueSize)
      ensures known == AfterPut(old(members), old(known), text, queueSize, |old(sent)|)
      ensures evictions == old(evictions) + |Overflowing(old(members), old(known), queueSize)|
    {
      BroadcastKeeps(members, known, sent, text, queueSize);
      MoreEvicted(members, known, sent, text, queueSize);
      PutAll(text);
      sent := sent + [text];
    }
  }

  // --- where each socket stands ---------------------------------------------------------------

  /** From admission to the slot's return. Once its task group is cancelled a socket is stopping,
      and its sender may still send until its own task has ended; only then may it be closed. */
  datatype Place =
    | Outside
    | Admitted                                // the handshake is being accepted
    | Serving
    | Stopping(sending: bool, closes: bool)
    | Closing                                 // evicted, and told so
    | Leaving
    | Left                                    // out of the fan-out, its slot not yet returned
    | Over

  predicate MaySend(place: Place) {
    place.Serving? || (place.Stopping? && place.sending)
  }

  predicate Attending(place: Place) {
    place.Serving? || place.Stopping? || place.Closing? || place.Leaving?
  }

  predicate Holds(place: Place) {
    place.Admitted? || Attending(place) || place.Left?
  }

  function At(places: map<nat, Place>, i: nat): Place {
    if i in places then places[i] else Outside
  }

  function MemberAt(known: map<nat, Member>, i: nat): Option<Member> {
    if i in known then Some(known[i]) else None
  }

  /** The sockets whose slot is out. */
  ghost function Holding(places: map<nat, Place>): set<nat> {
    set i | i in places && Holds(places[i])
  }

  /** The sockets that may still send, or are being closed. */
  ghost function Busy(places: map<nat, Place>): set<nat> {
    set i | i in places && (MaySend(places[i]) || places[i].Closing?)
  }

  /** A member is attended to, whoever is attended to has joined, and only the evicted are closed. */
  predicate SocketOk(place: Place, member: bool, m: Option<Member>) {
    && (m.Some? ==> !place.Outside? && !place.Admitted?)
    && (Attending(place) ==> m.Some?)
    && (member ==> Attending(place))
    && (place.Closing? || (place.Stopping? && place.closes) ==> m.Some? && m.value.evicted)
  }

  ghost predicate PlacesOk(places: map<nat, Place>, members: set<nat>, known: map<nat, Member>) {
    forall i :: SocketOk(At(places, i), i in members, MemberAt(known, i))
  }

  /** What can happen on the event loop, in any order: each event is one uninterrupted section. */
  datatype Event =
    | Broadcasting(text: string)
    | Connecting(socket: nat) | Accepting(socket: nat, first: string) | Failing(socket: nat)
    | Sending(socket: nat)
    | Stops(socket: nat, noticed: bool)   // closed, failed or cancelled; or its eviction noticed
    | SenderEnds(socket: nat) | GroupEnds(socket: nat) | CloseEnds(socket: nat)
    | Departing(socket: nat) | Releasing(socket: nat)

  /** Whether a socket standing here may make the event. */
  predicate Fits(place: Place, m: Option<Member>, event: Event) {
    match event
    case Broadcasting(_) => false
    case Connecting(_) => place.Outside?
    case Accepting(_, _) => place.Admitted?
    case Failing(_) => place.Admitted?
    case Sending(_) => MaySend(place) && m.Some? && m.value.queue != []
    case Stops(_, noticed) => (place.Serving? || place.Stopping?) && (noticed ==> m.Some? && m.value.evicted)
    case SenderEnds(_) => place.Stopping?
    case GroupEnds(_) => place.Stopping? && !place.sending
    case CloseEnds(_) => place.Closing?
    case Departing(_) => place.Leaving?
    case Releasing(_) => place.Left?
  }

  /** Where it then stands. */
  function Goes(place: Place, event: Event): Place {
    match event
    case Connecting(_) => Admitted
    case Accepting(_, _) => Serving
    case Failing(_) => Left
    case Stops(_, noticed) => if place.Stopping? then place.(closes := place.closes || noticed)
                              else Stopping(true, noticed)
    case SenderEnds(_) => if place.Stopping? then place.(sending := false) else place
    case GroupEnds(_) => if place.Stopping? && place.closes then Closing else Leaving
    case CloseEnds(_) => Leaving
    case Departing(_) => Left
    case Releasing(_) => Over
    case _ => place
  }

  // --- one socket's course ---------------------------------------------------------------------

  /** Where a socket stands after its own events so far. */
  function Stands(place: Place, events: seq<Event>): Place {
    if events == [] then place else Goes(Stands(place, events[..|events| - 1]), events[|events| - 1])
  }

  /** Each event may be made from where the ones before it led. */
  ghost predicate Course(place: Place, events: seq<Event>) {
    forall k :: 0 <= k < |events| ==> Possible(Stands(place, events[..k]), events[k])
  }

  ghost predicate Possible(place: Place, event: Event) {
    exists m :: Fits(place, m, event)
  }

  predicate Noticed(events: seq<Event>) {
    exists e :: e in events && e.Stops? && e.noticed
  }

  predicate Stopped(events: seq<Event>) {
    exists e :: e in events && e.Stops?
  }

  predicate SenderEnded(events: seq<Event>) {
    exists e :: e in events && e.SenderEnds?
  }

  predicate AllWithin(events: seq<Event>) {
    forall e :: e in events ==> e.Sending? || e.Stops? || e.SenderEnds?
  }

  lemma CoursePrefix(place: Place, events: seq<Event>)
    requires Course(place, events) && events != []
    ensures Course(place, events[..|events| - 1])
    ensures Possible(Stands(place, events[..|events| - 1]), events[|events| - 1])
  {
    var before := events[..|events| - 1];
    forall k | 0 <= k < |before|
      ensures Possible(Stands(place, before[..k]), before[k])
    {
      assert before[..k] == events[..k];
      assert Possible(Stands(place, events[..k]), events[k]);
    }
  }

  lemma OneMoreEvent(events: seq<Event>, e: Event)
    ensures Stopped(events + [e]) <==> Stopped(events) || e.Stops?
    ensures SenderEnded(events + [e]) <==> SenderEnded(events) || e.SenderEnds?
    ensures Noticed(events + [e]) <==> Noticed(events) || (e.Stops? && e.noticed)
    ensures AllWithin(events + [e]) ==> AllWithin(events) && (e.Sending? || e.Stops? || e.SenderEnds?)
  {
    assert e in events + [e];
    assert forall x :: x in events ==> x in events + [e];
  }

  /** Stopping once anything stopped it, sending until the sender ended, to be closed if noticed. */
  function Served(stopped: bool, ended: bool, noticed: bool): Place {
    if stopped then Stopping(!ended, noticed) else Serving
  }

  lemma ServedStep(stopped: bool, ended: bool, noticed: bool, e: Event)
    requires Possible(Served(stopped, ended, noticed), e) && (e.Sending? || e.Stops? || e.SenderEnds?)
    requires !stopped ==> !ended && !noticed
    ensures Goes(Served(stopped, ended, noticed), e) ==
            Served(stopped || e.Stops?, ended || e.SenderEnds?, noticed || (e.Stops? && e.noticed))
    ensures !stopped ==> !e.SenderEnds?
  {
  }

  /** While a socket is served: it is stopping once anything stopped it, its sender has ended once it
      did, and it is to be closed once its eviction was noticed, before or after the stop. */
  lemma {:induction false} ServedExactly(events: seq<Event>)
    requires Course(Serving, events) && AllWithin(events)
    ensures Stands(Serving, events) == Served(Stopped(events), SenderEnded(events), Noticed(events))
    ensures !Stopped(events) ==> !SenderEnded(events)
  {
    if events != [] {
      var n := |events| - 1;
      var before, e := events[..n], events[n];
      CoursePrefix(Serving, events);
      assert events == before + [e];
      OneMoreEvent(before, e);
      ServedExactly(before);
      ServedStep(Stopped(before), SenderEnded(before), Noticed(before), e);
    }
  }

  /** A socket served is closed with a reason, before its place is given up, if and only if its
      eviction was noticed; the task group ends only once the sender has; and what is left of its
      course leads to its slot's return. */
  lemma ClosedExactly(events: seq<Event>, socket: nat)
    requires Course(Serving, events + [GroupEnds(socket)]) && AllWithin(events)
    ensures Stopped(events) && SenderEnded(events)
    ensures var place := Stands(Serving, events + [GroupEnds(socket)]);
            && place == (if Noticed(events) then Closing else Leaving)
            && Stands(place, (if Noticed(events) then [CloseEnds(socket)] else [])
                             + [Departing(socket), Releasing(socket)]) == Over
  {
    var all := events + [GroupEnds(socket)];
    assert all[..|all| - 1] == events;
    CoursePrefix(Serving, all);
    ServedExactly(events);
    LeavesToTheEnd(socket);
  }

  lemma LeavesToTheEnd(socket: nat)
    ensures Stands(Leaving, [Departing(socket), Releasing(socket)]) == Over
    ensures Stands(Closing, [CloseEnds(socket), Departing(socket), Releasing(socket)]) == Over
    ensures Stands(Leaving, [] + [Departing(socket), Releasing(socket)]) == Over
    ensures Stands(Closing, [CloseEnds(socket)] + [Departing(socket), Releasing(socket)]) == Over
  {
    var end := [Departing(socket), Releasing(socket)];
    assert [] + end == end && end[..1] == [end[0]] && end[..1][..0] == [];
    var all := [CloseEnds(socket)] + end;
    assert all == [CloseEnds(socket), Departing(socket), Releasing(socket)];
    assert all[..2] == [CloseEnds(socket), Departing(socket)] && all[..2][..1] == [CloseEnds(socket)];
    assert [CloseEnds(socket)][..0] == [];
  }

  /** What the event may do to its socket's membership and queue. */
  predicate Does(member: bool, m: Option<Member>, event: Event, member': bool, m': Option<Member>) {
    match event
    case Accepting(_, _) => m'.Some?
    case Sending(_) => member' == member && m.Some? && m'.Some? && m'.value.evicted == m.value.evicted
    case Departing(_) => !member' && m'.Some?
    case _ => member' == member && m' == m
  }

  lemma GoesOk(place: Place, member: bool, m: Option<Member>, event: Event, member': bool, m': Option<Member>)
    requires SocketOk(place, member, m) && Fits(place, m, event) && Does(member, m, event, member', m')
    ensures SocketOk(Goes(place, event), member', m')
  {
  }

  /** A slot more or less, as the socket comes to hold one or ceases to. */
  lemma HoldingAfter(places: map<nat, Place>, i: nat, place: Place)
    ensures |Holding(places[i := place])| ==
            |Holding(places)| - (if Holds(At(places, i)) then 1 else 0) + if Holds(place) then 1 else 0
  {
    SlotOf(places, i);
    SlotOf(places[i := place], i);
    assert Holding(places) - {i} == Holding(places[i := place]) - {i};
  }

  lemma SlotOf(places: map<nat, Place>, i: nat)
    ensures |Holding(places)| == |Holding(places) - {i}| + if Holds(At(places, i)) then 1 else 0
  {
    if Holds(At(places, i)) {
      assert Holding(places) == (Holding(places) - {i}) + {i};
    } else {
      assert Holding(places) == Holding(places) - {i};
    }
  }

  /** A broadcast moves nobody: it only evicts, and an eviction is for good. */
  lemma PlacesAfterPut(places: map<nat, Place>, members: set<nat>, known: map<nat, Member>, text: string,
                       queueSize: nat, sent: nat)
    requires PlacesOk(places, members, known)
    ensures PlacesOk(places, members - Overflowing(members, known, queueSize),
                     AfterPut(members, known, text, queueSize, sent))
  {
    forall i
      ensures SocketOk(At(places, i), i in members - Overflowing(members, known, queueSize),
                       MemberAt(AfterPut(members, known, text, queueSize, sent), i))
    {
      assert SocketOk(At(places, i), i in members, MemberAt(known, i));
    }
  }

  /** A section about one socket leaves every other where it was. */
  lemma PlacesAfter(places: map<nat, Place>, members: set<nat>, known: map<nat, Member>, i: nat, place: Place,
                    members': set<nat>, known': map<nat, Member>)
    requires PlacesOk(places, members, known) && SocketOk(place, i in members', MemberAt(known', i))
    requires forall j :: j != i ==> (j in members' <==> j in members)
    requires forall j :: j != i ==> MemberAt(known', j) == MemberAt(known, j)
    ensures PlacesOk(places[i := place], members', known')
  {
    forall j
      ensures SocketOk(At(places[i := place], j), j in members', MemberAt(known', j))
    {
      assert SocketOk(At(places, j), j in members, MemberAt(known, j));
    }
  }

  /** `pageviews` with `attend`: the hub, and where every socket admitted so far stands. */
  class Endpoint {
    const hub: Hub
    var places: map<nat, Place>

    ghost predicate Valid()
      reads this, hub
    {
      && hub.Valid() && PlacesOk(places, hub.members, hub.known)
      && hub.admitted == |Holding(places)| <= hub.limit
    }

    constructor (limit: nat, queueSize: nat)
      ensures Valid() && fresh(hub) && hub.limit == limit && hub.queueSize == queueSize
      ensures places == map[] && hub.sent == []
    {
      hub := new Hub(limit, queueSize);
      places := map[];
      new;
      assert Holding(places) == {};
    }

    /** One section. A connection refused for want of a slot leaves no trace. */
    method Occur(event: Event)
      requires Valid()
      modifies this, hub
      ensures Valid() && hub.sent == old(hub.sent) + if event.Broadcasting? then [event.text] else []
      ensures !event.Broadcasting? ==> var place := At(old(places), event.socket);
                places == if Fits(place, MemberAt(old(hub.known), event.socket), event)
                             && !(event.Connecting? && old(hub.admitted) == hub.limit)
                          then old(places)[event.socket := Goes(place, event)] else old(places)
    {
      if event.Broadcasting? {
        PlacesAfterPut(places, hub.members, hub.known, event.text, hub.queueSize, |hub.sent|);
        hub.Broadcast(event.text);
      } else {
        var i := event.socket;
        var place := At(places, i);
        if Fits(place, MemberAt(hub.known, i), event) {
          ghost var members, known := hub.members, hub.known;
          var ok := Act(event);
          if ok {
            PlacesAfter(places, members, known, i, Goes(place, event), hub.members, hub.known);
            HoldingAfter(places, i, Goes(place, event));
            places := places[i := Goes(place, event)];
          }
        }
      }
    }

    /** What the event does to the hub, for the one socket it is about. */
    method Act(event: Event) returns (ok: bool)
      requires hub.Valid() && !event.Broadcasting? && hub.admitted <= hub.limit
      requires SocketOk(At(places, event.socket), event.socket in hub.members, MemberAt(hub.known, event.socket))
      requires Fits(At(places, event.socket), MemberAt(hub.known, event.socket), event)
      modifies hub
      ensures hub.Valid() && hub.sent == old(hub.sent)
      ensures ok == !(event.Connecting? && old(hub.admitted) == hub.limit)
      ensures hub.admitted ==
              old(hub.admitted) + if event.Connecting? && ok then 1 else if event.Releasing? then -1 else 0
      ensures ok ==> SocketOk(Goes(At(places, event.socket), event), event.socket in hub.members,
                              MemberAt(hub.known, event.socket))
      ensures !ok ==> hub.members == old(hub.members) && hub.known == old(hub.known)
      ensures forall j :: j != event.socket ==> (j in hub.members <==> j in old(hub.members))
      ensures forall j :: j != event.socket ==> MemberAt(hub.known, j) == MemberAt(old(hub.known), j)
    {
      ok := true;
      ghost var i := event.socket;
      ghost var place, member, m := At(places, i), i in hub.members, MemberAt(hub.known, i);
      match event {
        case Connecting(_) => ok := hub.Admit();
        case Accepting(i, first) => hub.Join(i, first);
        case Sending(i) => var _ := hub.Take(i);
        case Departing(i) => hub.Leave(i);
        case Releasing(_) => hub.Release();
        case _ =>
      }
      GoesOk(place, member, m, event, i in hub.members, MemberAt(hub.known, i));
    }
  }

  /** The texts broadcast by a run. */
  function Texts(events: seq<Event>): seq<string> {
    if events == [] then [] else
      Texts(events[..|events| - 1]) + var last := events[|events| - 1]; if last.Broadcasting? then [last.text] else []
  }

  lemma {:induction false} Fewer(a: set<nat>, b: set<nat>)
    requires a <= b
    ensures |a| <= |b|
  {
    assert b == a + (b - a);
  }

  /** Any interleaving of any number of sockets, from an empty hub. Whoever may still send or is
      being closed holds a slot, so there are never more of them than the limit. */
  method Serve(events: seq<Event>, limit: nat, queueSize: nat) returns (app: Endpoint)
    ensures NoGaps(app.hub.members, app.hub.known, Texts(events))
    ensures queueSize > 0 ==> forall i :: i in app.hub.known ==> |app.hub.known[i].queue| <= queueSize
    ensures app.hub.evictions == |Evicted(app.hub.known)|
    ensures Busy(app.places) <= Holding(app.places)
    ensures app.hub.admitted == |Holding(app.places)| && |Busy(app.places)| <= app.hub.admitted <= limit
    ensures PlacesOk(app.places, app.hub.members, app.hub.known)
  {
    app := new Endpoint(limit, queueSize);
    for k := 0 to |events|
      invariant app.Valid() && app.hub.limit == limit && app.hub.queueSize == queueSize
      invariant app.hub.sent == Texts(events[..k]) && fresh(app) && fresh(app.hub)
    {
      assert events[..k + 1][..k] == events[..k];
      app.Occur(events[k]);
    }
    assert events[..|events|] == events;
    Fewer(Busy(app.places), Holding(app.places));
  }

  /** Every member's queue after a broadcast. */
  function AfterPut(members: set<nat>, known: map<nat, Member>, text: string, queueSize: nat,
                    sent: nat): map<nat, Member> {
    map i | i in known :: if i in members then Put(known[i], text, queueSize, sent) else known[i]
  }

  /** The members that cannot keep up. */
  function Overflowing(members: set<nat>, known: map<nat, Member>, queueSize: nat): set<nat> {
    set i | i in members && i in known && Full(known[i], queueSize)
  }

  lemma OneMorePut(all: set<nat>, done: set<nat>, known: map<nat, Member>, i: nat, text: string, queueSize: nat,
                   sent: nat)
    requires i in known && i !in done
    ensures AfterPut(done, known, text, queueSize, sent)[i] == known[i]
    ensures AfterPut(done + {i}, known, text, queueSize, sent)
         == AfterPut(done, known, text, queueSize, sent)[i := Put(known[i], text, queueSize, sent)]
    ensures var was, now := Overflowing(done, known, queueSize), Overflowing(done + {i}, known, queueSize);
            if Full(known[i], queueSize) then all - was - {i} == all - now && |now| == |was| + 1 else now == was
  {
    var was, now := Overflowing(done, known, queueSize), Overflowing(done + {i}, known, queueSize);
    if Full(known[i], queueSize) {
      assert now == was + {i};
    }
  }

  /** A broadcast evicts exactly the members that cannot keep up, each for the first time. */
  lemma MoreEvicted(members: set<nat>, known: map<nat, Member>, sent: seq<string>, text: string, queueSize: nat)
    requires NoGaps(members, known, sent)
    ensures |Evicted(AfterPut(members, known, text, queueSize, |sent|))| ==
              |Evicted(known)| + |Overflowing(members, known, queueSize)|
  {
    var full := Overflowing(members, known, queueSize);
    assert Evicted(known) !! full;
    assert Evicted(AfterPut(members, known, text, queueSize, |sent|)) == Evicted(known) + full;
  }

  lemma BroadcastKeeps(members: set<nat>, known: map<nat, Member>, sent: seq<string>, text: string, queueSize: nat)
    requires NoGaps(members, known, sent)
    ensures NoGaps(members - Overflowing(members, known, queueSize),
                   AfterPut(members, known, text, queueSize, |sent|), sent + [text])
  {
    forall i | i in members {
      PutKeeps(known[i], text, queueSize, sent);
    }
    forall i | i in known && i !in members
      ensures Former(known[i], sent + [text])
    {
      assert (sent + [text])[known[i].joined..known[i].left] == sent[known[i].joined..known[i].left];
    }
  }
}
